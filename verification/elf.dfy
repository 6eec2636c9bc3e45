/** The record writers of elf-extract (elf-extract/src/lib.rs): functions and
    v-tables of the BOLTed binary, translated from addresses to file offsets. */
module Elf {
  import opened Words
  import opened Code
  import opened Records

  /** `size` and `loaded` are the header's own, which the writers do not read: a
      section is loaded when it is allocated and has its contents in the file. */
  datatype Section = Section(address: int, offset: int, size: int, loaded: bool)

  datatype SectionRef = Undefined | Elsewhere | Index(n: nat)

  datatype Symbol = Symbol(address: int, size: int, isText: bool, name: string, section: SectionRef)

  /** A parsed file: `symbols` lists the regular and then the dynamic ones. */
  datatype ElfFile = ElfFile(bytes: seq<Byte>, sections: seq<Section>, symbols: seq<Symbol>)

  datatype Slice = OutOfBounds | Contents(bs: seq<Byte>)

  /** 64-bit file offset of an address, relative to its section. */
  function FileOffset(s: Section, a: int): int { U64(s.offset + (a - s.address)) }

  /** `bytes[start..start + size]` with wrapping addition and a bounds check. */
  function SliceAt(bytes: seq<Byte>, start: int, size: int): Slice
    requires 0 <= start
  {
    var end := U64(start + size);
    if start <= end <= |bytes| then Contents(bytes[start..end]) else OutOfBounds
  }

  lemma SliceFits(bytes: seq<Byte>, start: int, size: int)
    requires 0 <= start
    ensures SliceAt(bytes, start, size).Contents? ==> |SliceAt(bytes, start, size).bs| <= |bytes|
  {
  }

  // Functions

  /** The last text symbol with this address. */
  predicate LastText(symbols: seq<Symbol>, k: int, a: int) {
    && 0 <= k < |symbols| && symbols[k].isText && symbols[k].address == a
    && forall j :: k < j < |symbols| && symbols[j].isText ==> symbols[j].address != a
  }

  /** The symbol table filled by `init`: a later symbol replaces an earlier one. */
  method IndexSymbols(symbols: seq<Symbol>) returns (m: map<int, Symbol>)
    ensures forall a :: a in m ==> exists k :: LastText(symbols, k, a) && m[a] == symbols[k]
    ensures forall k :: 0 <= k < |symbols| && symbols[k].isText ==> symbols[k].address in m
  {
    m := map[];
    var i := 0;
    while i < |symbols|
      invariant 0 <= i <= |symbols|
      invariant forall a :: a in m ==> exists k :: LastText(symbols[..i], k, a) && m[a] == symbols[k]
      invariant forall k :: 0 <= k < i && symbols[k].isText ==> symbols[k].address in m
    {
      ghost var before := m;
      if symbols[i].isText {
        m := m[symbols[i].address := symbols[i]];
      }
      forall a | a in m
        ensures exists k :: LastText(symbols[..i + 1], k, a) && m[a] == symbols[k]
      {
        if symbols[i].isText && a == symbols[i].address {
          assert LastText(symbols[..i + 1], i, a);
        } else {
          var k :| LastText(symbols[..i], k, a) && before[a] == symbols[k];
          assert LastText(symbols[..i + 1], k, a);
        }
      }
      i := i + 1;
    }
    assert symbols[..i] == symbols;
  }

  /** A later text symbol takes its address, every other symbol leaves it alone. */
  lemma LastTextStays(symbols: seq<Symbol>, s: Symbol, k: int, a: int)
    ensures s.isText ==> LastText(symbols + [s], |symbols|, s.address)
    ensures LastText(symbols, k, a) && !(s.isText && s.address == a) ==> LastText(symbols + [s], k, a)
  {
  }

  /** The machine code of a function symbol; a section the symbol lacks, or one
      that starts above it, is a panic. */
  function FunctionBytes(elf: ElfFile, sym: Symbol): Slice {
    if !sym.section.Index? || sym.section.n >= |elf.sections| then OutOfBounds
    else
      var sec := elf.sections[sym.section.n];
      if sym.address < sec.address then OutOfBounds
      else SliceAt(elf.bytes, FileOffset(sec, sym.address), sym.size)
  }

  /** The records for the addresses that have a symbol, in the order asked. */
  function FunctionRecords(elf: ElfFile, syms: map<int, Symbol>, addrs: seq<int>): seq<Record>
    requires forall a :: a in addrs && a in syms ==> FunctionBytes(elf, syms[a]).Contents?
  {
    if addrs == [] then []
    else
      var init, a := addrs[..|addrs| - 1], addrs[|addrs| - 1];
      FunctionRecords(elf, syms, init) + if a in syms then [Record(a, FunctionBytes(elf, syms[a]).bs)] else []
  }

  predicate Readable(elf: ElfFile, syms: map<int, Symbol>, addrs: seq<int>) {
    forall a :: a in addrs && a in syms ==> FunctionBytes(elf, syms[a]).Contents?
  }

  /** write_functions */
  method WriteFunctions(elf: ElfFile, syms: map<int, Symbol>, addrs: seq<int>) returns (ok: bool, file: seq<Byte>)
    ensures ok <==> Readable(elf, syms, addrs)
    ensures ok ==> file == EncodeAll(FunctionRecords(elf, syms, addrs))
  {
    hide FunctionBytes, EncodeAll, ToLE;
    file := [];
    var i := 0;
    NothingWritten();
    assert addrs[..0] == [];
    while i < |addrs|
      invariant 0 <= i <= |addrs|
      invariant Readable(elf, syms, addrs[..i])
      invariant file == EncodeAll(FunctionRecords(elf, syms, addrs[..i]))
    {
      var a := addrs[i];
      assert addrs[..i + 1] == addrs[..i] + [a] && addrs[..i + 1][..i] == addrs[..i];
      assert a in addrs;
      if a in syms {
        var slice := FunctionBytes(elf, syms[a]);
        if slice.OutOfBounds? {
          return false, [];
        }
        EncodeAllSnoc(FunctionRecords(elf, syms, addrs[..i]), Record(a, slice.bs));
        file := file + Encode(Record(a, slice.bs));
      } else {
        assert FunctionRecords(elf, syms, addrs[..i + 1]) == FunctionRecords(elf, syms, addrs[..i]);
      }
      i := i + 1;
    }
    assert addrs[..i] == addrs;
    return true, file;
  }

  lemma NothingWritten()
    ensures EncodeAll([]) == []
  {
  }

  /** A record for each address that has a symbol, and for no other. */
  lemma {:induction false} FunctionRecordOf(elf: ElfFile, syms: map<int, Symbol>, addrs: seq<int>, r: Record)
    requires Readable(elf, syms, addrs)
    ensures r in FunctionRecords(elf, syms, addrs) <==>
      r.addr in addrs && r.addr in syms && Contents(r.payload) == FunctionBytes(elf, syms[r.addr])
    decreases |addrs|
  {
    if addrs != [] {
      var init, a := addrs[..|addrs| - 1], addrs[|addrs| - 1];
      assert addrs == init + [a];
      FunctionRecordOf(elf, syms, init, r);
    }
  }

  /** The offset of a symbol in its section, and of its end in the file, where no
      addition wraps. */
  predicate NoWrap(s: Section, sym: Symbol) {
    0 <= sym.size && 0 <= s.offset + (sym.address - s.address) && s.offset + (sym.address - s.address) + sym.size < TWO_64
  }

  /** When a function can be read, and what is read. */
  lemma FunctionReadExactly(elf: ElfFile, sym: Symbol)
    requires sym.section.Index? && sym.section.n < |elf.sections| ==> NoWrap(elf.sections[sym.section.n], sym)
    ensures FunctionBytes(elf, sym).Contents? <==>
      && sym.section.Index? && sym.section.n < |elf.sections|
      && elf.sections[sym.section.n].address <= sym.address
      && elf.sections[sym.section.n].offset + (sym.address - elf.sections[sym.section.n].address) + sym.size <= |elf.bytes|
    ensures FunctionBytes(elf, sym).Contents? ==>
      var start := elf.sections[sym.section.n].offset + (sym.address - elf.sections[sym.section.n].address);
      FunctionBytes(elf, sym).bs == elf.bytes[start..start + sym.size]
  {
    if sym.section.Index? && sym.section.n < |elf.sections| {
      SliceExactly(elf, elf.sections[sym.section.n], sym);
    }
  }

  lemma SliceExactly(elf: ElfFile, s: Section, sym: Symbol)
    requires NoWrap(s, sym)
    ensures var start, slice := s.offset + (sym.address - s.address), SliceAt(elf.bytes, FileOffset(s, sym.address), sym.size);
      && (slice.Contents? <==> start + sym.size <= |elf.bytes|)
      && (slice.Contents? ==> slice.bs == elf.bytes[start..start + sym.size])
  {
    SmallU64(s.offset + (sym.address - s.address));
    SmallU64(s.offset + (sym.address - s.address) + sym.size);
    hide U64;
  }

  // What the loader makes of the file

  /** The loader puts a byte of the file at address `a` of section `n`. */
  predicate InSection(elf: ElfFile, n: nat, a: int) {
    n < |elf.sections| && elf.sections[n].loaded && elf.sections[n].address <= a < elf.sections[n].address + elf.sections[n].size
  }

  /** `img` holds the loaded sections of the file at their addresses. */
  ghost predicate Loaded(elf: ElfFile, img: Memory) {
    forall n: nat, a :: InSection(elf, n, a) ==>
      && 0 <= elf.sections[n].offset + (a - elf.sections[n].address) < |elf.bytes|
      && a in img && img[a] == elf.bytes[elf.sections[n].offset + (a - elf.sections[n].address)]
  }

  /** The extent of the symbol lies in its section, and the section is loaded. */
  predicate WithinSection(elf: ElfFile, sym: Symbol) {
    && sym.section.Index? && sym.section.n < |elf.sections| && sym.size >= 0
    && InSection(elf, sym.section.n, sym.address)
    && (sym.size > 0 ==> InSection(elf, sym.section.n, sym.address + sym.size - 1))
  }

  /** The bytes of a record are those of memory. */
  ghost predicate IsSliceOf(img: Memory, r: Record) {
    forall k :: Covers(r, k) ==> k in img && img[k] == r.payload[k - r.addr]
  }

  /** For a symbol within its section, the writer copies the loaded bytes: the
      address-to-offset translation undoes what the loader does. */
  lemma FunctionBytesAreLoaded(elf: ElfFile, img: Memory, sym: Symbol)
    requires Loaded(elf, img) && WithinSection(elf, sym) && |elf.bytes| < TWO_64
    ensures FunctionBytes(elf, sym).Contents? && |FunctionBytes(elf, sym).bs| == sym.size
    ensures IsSliceOf(img, Record(sym.address, FunctionBytes(elf, sym).bs))
  {
    hide U64;
    var n := sym.section.n;
    var sec := elf.sections[n];
    var start := sec.offset + (sym.address - sec.address);
    assert InSection(elf, n, sym.address);
    SmallU64(start);
    SmallU64(start + sym.size);
    forall k | sym.address <= k < sym.address + sym.size
      ensures k in img && img[k] == elf.bytes[start..start + sym.size][k - sym.address]
    {
      assert InSection(elf, n, k);
    }
  }

  // V-tables

  predicate IsVtableName(name: string) {
    |name| >= 4 && (name[..4] == "_ZTV" || name[..4] == "_ZTC")
  }

  datatype Vtable = NotAVtable | VtablePanic | Table(record: Record)

  function ExtractVtable(elf: ElfFile, sym: Symbol): Vtable {
    if !IsVtableName(sym.name) || sym.section.Undefined? then NotAVtable
    else if !sym.section.Index? || sym.section.n >= |elf.sections| then VtablePanic
    else
      var slice := SliceAt(elf.bytes, FileOffset(elf.sections[sym.section.n], sym.address), sym.size);
      if slice.OutOfBounds? then VtablePanic else Table(Record(sym.address, slice.bs))
  }

  /** The symbols that are v-tables: those with the mangled prefix of one or of a
      construction v-table, unless they are imported. */
  lemma VtablesDue(elf: ElfFile, sym: Symbol)
    ensures !ExtractVtable(elf, sym).NotAVtable? <==>
      !sym.section.Undefined? && exists rest: string :: sym.name == "_ZTV" + rest || sym.name == "_ZTC" + rest
  {
    if IsVtableName(sym.name) {
      assert sym.name == sym.name[..4] + sym.name[4..];
    }
    forall rest: string | sym.name == "_ZTV" + rest || sym.name == "_ZTC" + rest
      ensures IsVtableName(sym.name)
    {
      assert ("_ZTV" + rest)[..4] == "_ZTV" && ("_ZTC" + rest)[..4] == "_ZTC";
    }
  }

  /** When a v-table can be read, and what is read. */
  lemma VtableReadExactly(elf: ElfFile, sym: Symbol)
    requires !ExtractVtable(elf, sym).NotAVtable?
    requires sym.section.Index? && sym.section.n < |elf.sections| ==> NoWrap(elf.sections[sym.section.n], sym)
    ensures ExtractVtable(elf, sym).Table? <==>
      && sym.section.Index? && sym.section.n < |elf.sections|
      && elf.sections[sym.section.n].offset + (sym.address - elf.sections[sym.section.n].address) + sym.size <= |elf.bytes|
    ensures ExtractVtable(elf, sym).Table? ==>
      var start := elf.sections[sym.section.n].offset + (sym.address - elf.sections[sym.section.n].address);
      ExtractVtable(elf, sym).record == Record(sym.address, elf.bytes[start..start + sym.size])
  {
    if sym.section.Index? && sym.section.n < |elf.sections| {
      SliceExactly(elf, elf.sections[sym.section.n], sym);
      hide SliceAt, FileOffset;
    }
  }

  /** The first v-table of an address stays when symbols follow. */
  lemma FirstTableStays(elf: ElfFile, more: seq<Symbol>, k: int, r: Record)
    requires FirstTable(elf, k, r)
    ensures FirstTable(elf.(symbols := elf.symbols + more), k, r)
  {
    var elf' := elf.(symbols := elf.symbols + more);
    forall j | 0 <= j <= k
      ensures ExtractVtable(elf', elf'.symbols[j]) == ExtractVtable(elf, elf.symbols[j])
    {
    }
  }

  /** Symbol `k` holds a v-table, and no earlier one does at its address. */
  predicate FirstTable(elf: ElfFile, k: int, r: Record) {
    && 0 <= k < |elf.symbols| && ExtractVtable(elf, elf.symbols[k]) == Table(r)
    && forall j :: 0 <= j < k && ExtractVtable(elf, elf.symbols[j]).Table? ==> elf.symbols[j].address != r.addr
  }

  /** Every address with a v-table has a first one. */
  lemma {:induction false} FirstTableFound(elf: ElfFile, k: nat) returns (first: nat, r: Record)
    requires k < |elf.symbols| && ExtractVtable(elf, elf.symbols[k]).Table?
    ensures FirstTable(elf, first, r) && r.addr == elf.symbols[k].address
  {
    hide ExtractVtable;
    VtableAddress(elf, elf.symbols[k]);
    if j: nat :| j < k && ExtractVtable(elf, elf.symbols[j]).Table? && elf.symbols[j].address == elf.symbols[k].address {
      first, r := FirstTableFound(elf, j);
    } else {
      first, r := k, ExtractVtable(elf, elf.symbols[k]).record;
    }
  }

  /** get_vtables: one record per address, the first one found. */
  method GetVtables(elf: ElfFile) returns (ok: bool, vtabs: seq<Record>)
    ensures ok <==> forall k :: 0 <= k < |elf.symbols| ==> !ExtractVtable(elf, elf.symbols[k]).VtablePanic?
    ensures ok ==> forall r :: r in vtabs <==> exists k :: FirstTable(elf, k, r)
    ensures ok ==> forall i, j :: 0 <= i < j < |vtabs| ==> vtabs[i].addr != vtabs[j].addr
  {
    hide ExtractVtable;
    vtabs := [];
    var addrs: set<int> := {};
    var i := 0;
    while i < |elf.symbols|
      invariant 0 <= i <= |elf.symbols|
      invariant forall k :: 0 <= k < i ==> !ExtractVtable(elf, elf.symbols[k]).VtablePanic?
      invariant forall r :: r in vtabs <==> exists k :: k < i && FirstTable(elf, k, r)
      invariant forall j, k :: 0 <= j < k < |vtabs| ==> vtabs[j].addr != vtabs[k].addr
      invariant forall r :: r in vtabs ==> r.addr in addrs
      invariant forall a :: a in addrs ==> exists k :: 0 <= k < i && ExtractVtable(elf, elf.symbols[k]).Table? && elf.symbols[k].address == a
      invariant forall k :: 0 <= k < i && ExtractVtable(elf, elf.symbols[k]).Table? ==> elf.symbols[k].address in addrs
    {
      var vt := ExtractVtable(elf, elf.symbols[i]);
      VtableAddress(elf, elf.symbols[i]);
      if vt.VtablePanic? {
        return false, [];
      }
      if vt.Table? {
        if vt.record.addr !in addrs {
          addrs := addrs + {vt.record.addr};
          vtabs := vtabs + [vt.record];
          assert FirstTable(elf, i, vt.record);
        } else {
          assert forall r :: !FirstTable(elf, i, r);
        }
      }
      i := i + 1;
    }
    return true, vtabs;
  }

  lemma VtableAddress(elf: ElfFile, sym: Symbol)
    ensures ExtractVtable(elf, sym).Table? ==> ExtractVtable(elf, sym).record.addr == sym.address
  {
  }

  /** The file holds one record for each address with a v-table, the first one. */
  ghost predicate VtableFile(elf: ElfFile, file: seq<Byte>) {
    exists vtabs: seq<Record> :: file == EncodeAll(vtabs) && forall r :: r in vtabs <==> exists k :: FirstTable(elf, k, r)
  }

  /** write_vtable */
  method WriteVtable(elf: ElfFile) returns (ok: bool, file: seq<Byte>)
    ensures ok <==> forall k :: 0 <= k < |elf.symbols| ==> !ExtractVtable(elf, elf.symbols[k]).VtablePanic?
    ensures ok ==> VtableFile(elf, file)
  {
    hide EncodeAll, ExtractVtable, FirstTable;
    var found;
    ok, found := GetVtables(elf);
    file := [];
    if ok {
      NothingWritten();
      var i := 0;
      assert found[..0] == [];
      while i < |found|
        invariant 0 <= i <= |found|
        invariant file == EncodeAll(found[..i])
      {
        EncodeAllSnoc(found[..i], found[i]);
        assert found[..i + 1] == found[..i] + [found[i]];
        file := file + ToLE(U64(found[i].addr), 8) + ToLE(U64(|found[i].payload|), 8) + found[i].payload;
        i := i + 1;
      }
      assert found[..i] == found;
    }
  }

  /** No record is longer than the file. */
  lemma RecordsFit(elf: ElfFile, sym: Symbol)
    ensures FunctionBytes(elf, sym).Contents? ==> |FunctionBytes(elf, sym).bs| <= |elf.bytes|
    ensures ExtractVtable(elf, sym).Table? ==>
      |ExtractVtable(elf, sym).record.payload| <= |elf.bytes| && ExtractVtable(elf, sym).record.addr == sym.address
  {
    hide SliceAt;
    if sym.section.Index? && sym.section.n < |elf.sections| {
      SliceFits(elf.bytes, FileOffset(elf.sections[sym.section.n], sym.address), sym.size);
    }
  }

  /** The same for a v-table. */
  lemma VtableBytesAreLoaded(elf: ElfFile, img: Memory, sym: Symbol)
    requires Loaded(elf, img) && WithinSection(elf, sym) && |elf.bytes| < TWO_64
    requires ExtractVtable(elf, sym).Table?
    ensures IsSliceOf(img, ExtractVtable(elf, sym).record)
  {
    FunctionBytesAreLoaded(elf, img, sym);
    assert InSection(elf, sym.section.n, sym.address);
  }

  /** The record of a v-table is a slice of the file, whatever its section is. */
  lemma VtableIsSlice(elf: ElfFile, sym: Symbol)
    requires ExtractVtable(elf, sym).Table?
    ensures var r, start := ExtractVtable(elf, sym).record, FileOffset(elf.sections[sym.section.n], sym.address);
      && r.addr == sym.address && 0 <= start <= start + |r.payload| <= |elf.bytes|
      && r.payload == elf.bytes[start..start + |r.payload|]
  {
  }

  /** Memory that the loader fills with zeros. */
  predicate ZeroFilled(mem: Memory, a: int, n: nat) {
    forall k :: a <= k < a + n ==> k in mem && mem[k] == 0
  }

  /** A v-table in memory that the loader zero-fills, as one in .bss: its record
      holds the bytes of the process exactly when the stretch of the file that the
      writer takes for it is all zero. */
  lemma UnloadedVtable(elf: ElfFile, mem: Memory, sym: Symbol)
    requires ExtractVtable(elf, sym).Table? && ZeroFilled(mem, sym.address, |ExtractVtable(elf, sym).record.payload|)
    ensures var r, start := ExtractVtable(elf, sym).record, FileOffset(elf.sections[sym.section.n], sym.address);
      && 0 <= start <= start + |r.payload| <= |elf.bytes|
      && (IsSliceOf(mem, r) <==> forall i :: start <= i < start + |r.payload| ==> elf.bytes[i] == 0)
  {
    VtableIsSlice(elf, sym);
    var r, start := ExtractVtable(elf, sym).record, FileOffset(elf.sections[sym.section.n], sym.address);
    hide ExtractVtable, FileOffset;
    assert forall i :: 0 <= i < |r.payload| ==> r.payload[i] == elf.bytes[start + i];
    if IsSliceOf(mem, r) {
      forall i | start <= i < start + |r.payload|
        ensures elf.bytes[i] == 0
      {
        assert Covers(r, r.addr + (i - start));
      }
    }
  }

  /** Such a file: two bytes of something else are taken for the table. */
  lemma UnloadedVtableRead()
    ensures var elf := ElfFile([7, 7, 9, 9], [Section(8192, 2, 2, false)], [Symbol(8192, 2, false, "_ZTVA", Index(0))]);
      ExtractVtable(elf, elf.symbols[0]) == Table(Record(8192, [9, 9]))
  {
    SmallU64(2);
    SmallU64(4);
    var name := "_ZTVA";
    assert name[..4] == "_ZTV";
    var bytes: seq<Byte> := [7, 7, 9, 9];
    assert bytes[2..4] == [9, 9];
  }
}
