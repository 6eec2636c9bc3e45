/** One replacement from end to end (src/tracer.cpp): the sets, the files, the
    hijacked thread, and what is known of memory when it is done. */
module Tracer {
  import opened Words
  import opened Code
  import opened Records
  import opened CallSites
  import opened CallStack
  import opened Patching
  import opened Machine
  import opened Replacement
  import opened Insertion
  import opened Injection
  import Hex
  import Elf
  import Boundaries
  import Disassembly

  /** What the tools say: the symbol listing and the disassembly of the original
      binary, the functions BOLT moved, and the binary it wrote. */
  datatype Binary = Binary(symbols: seq<Line>, disasm: CallSites.Disassembly, bolted: Funcs, elf: Elf.ElfFile)

  /** What the tracer has before it pauses the process. `symbols` is the symbol
      table of the BOLTed binary. */
  datatype Inputs = Inputs(funcs: Funcs, bolted: Funcs, sites: Table, index: Index,
                           elf: Elf.ElfFile, symbols: map<int, Elf.Symbol>)

  /** The call sites the extractor lists one after the other. */
  function ListedSites(b: Binary): Collected
    requires Listed(ScannedFuncs(b.symbols), b.disasm)
  {
    SitesOfFuncs(ScannedFuncs(b.symbols), b.disasm)
  }

  /** The tables made of what the tools say. */
  ghost predicate Prepared(b: Binary, input: Inputs) {
    && input.bolted == b.bolted && input.elf == b.elf
    && (forall a :: a in input.funcs ==> exists k :: FirstToDeclare(b.symbols, k, a) && input.funcs[a] == InfoOf(b.symbols[k]))
    && (forall a :: (exists k :: FirstToDeclare(b.symbols, k, a)) ==> a in input.funcs)
    && Listed(ScannedFuncs(b.symbols), b.disasm) && ListedSites(b).Collected?
    && Tabulates(input.sites, ListedSites(b).sites)
    && Inverts(input.index, input.sites)
    && SymbolsIndexed(input)
  }

  /** The offline extraction, and the tables the tracer builds from the symbol
      listing and from the BOLTed binary. */
  method Prepare(b: Binary) returns (ok: bool, input: Inputs)
    requires Listed(ScannedFuncs(b.symbols), b.disasm)
    ensures ok <==> ListedSites(b).Collected?
    ensures ok ==> Prepared(b, input)
  {
    hide Listed, SitesOfFuncs, Tabulates, Inverts, FirstToDeclare, Elf.LastText, InfoOf;
    var sites, index;
    ok, sites, index := ExtractAll(b.symbols, b.disasm);
    var funcs := GetFuncWithOriginalAddr(b.symbols);
    var symbols := Elf.IndexSymbols(b.elf.symbols);
    input := Inputs(funcs, b.bolted, sites, index, b.elf, symbols);
    IndexedSymbols(input);
    FuncsDeclared(b.symbols, funcs);
  }

  lemma FuncsDeclared(lines: seq<Line>, funcs: Funcs)
    requires forall a, k :: FirstToDeclare(lines, k, a) ==> a in funcs && funcs[a] == InfoOf(lines[k])
    requires forall a :: a in funcs ==> exists k :: FirstToDeclare(lines, k, a)
    ensures forall a :: a in funcs ==> exists k :: FirstToDeclare(lines, k, a) && funcs[a] == InfoOf(lines[k])
  {
  }

  lemma IndexedSymbols(input: Inputs)
    requires forall a :: a in input.symbols ==>
      exists k :: Elf.LastText(input.elf.symbols, k, a) && input.symbols[a] == input.elf.symbols[k]
    ensures SymbolsIndexed(input)
  {
  }

  /** The numbers the tools print fit their C++ types. */
  ghost predicate NumbersFine(b: Binary)
    requires Listed(ScannedFuncs(b.symbols), b.disasm) && ListedSites(b).Collected?
  {
    && (forall f :: f in b.bolted ==> 0 <= b.bolted[f].movedAddr < TWO_63)
    && (forall s :: s in ListedSites(b).sites && s.target in b.bolted ==> IsLong(b.bolted[s.target].movedAddr - s.nextAddr))
    && (forall s :: s in b.elf.symbols && Elf.ExtractVtable(b.elf, s).Table? ==> IsLong(s.address))
    && |b.elf.bytes| < TWO_63
  }

  lemma PreparedFine(b: Binary, input: Inputs)
    requires Prepared(b, input) && NumbersFine(b)
    ensures InputsFine(input)
  {
    hide SitesOfFuncs, Listed, Inverts, Elf.ExtractVtable, Hex.Value;
    SiteAddressesLong(ScannedFuncs(b.symbols), b.disasm);
    forall a | a in input.funcs
      ensures IsLong(a)
    {
      var k :| FirstToDeclare(b.symbols, k, a);
    }
  }

  ghost predicate SymbolsIndexed(input: Inputs) {
    forall a :: a in input.symbols ==> input.symbols[a].address == a && input.symbols[a] in input.elf.symbols
  }

  /** Addresses and sizes fit a `long`. */
  ghost predicate InRange64(input: Inputs) {
    && (forall a :: a in input.funcs ==> IsLong(a))
    && (forall a :: a in input.bolted ==> IsLong(input.bolted[a].movedAddr))
    && (forall a :: a in input.sites ==> IsLong(a))
    && NearEnough(input.sites, input.bolted)
    && (forall s :: s in input.elf.symbols && Elf.ExtractVtable(input.elf, s).Table? ==> IsLong(s.address))
    && |input.elf.bytes| < TWO_63
  }

  ghost predicate InputsFine(input: Inputs) {
    SymbolsIndexed(input) && InRange64(input) && Inverts(input.index, input.sites)
  }

  predicate FunctionRecord(input: Inputs, r: Record) {
    r.addr in input.symbols && Elf.Contents(r.payload) == Elf.FunctionBytes(input.elf, input.symbols[r.addr])
  }

  ghost predicate IsMovedEntry(input: Inputs, b: int) {
    exists f :: f in input.bolted && input.bolted[f].movedAddr == b
  }

  /** The BOLTed functions of the binary that have a symbol. */
  ghost predicate BoltedRecordsOf(input: Inputs, rs: seq<Record>) {
    forall r :: r in rs <==> IsMovedEntry(input, r.addr) && FunctionRecord(input, r)
  }

  /** The first v-table of each address. */
  ghost predicate VtableRecordsOf(input: Inputs, rs: seq<Record>) {
    forall r :: r in rs <==> exists k :: Elf.FirstTable(input.elf, k, r)
  }

  /** One patch for each site that needs one. */
  ghost predicate PatchRecordsOf(input: Inputs, onStack: Funcs, rs: seq<Record>) {
    forall r :: r in rs <==>
      NeedsPatch(input.sites, input.bolted, onStack, r.addr) && r == Patch(input.sites, input.bolted, r.addr)
  }

  /** The functions that neither moved nor are on a stack. */
  ghost predicate UnmovedRecordsOf(input: Inputs, onStack: Funcs, rs: seq<Record>) {
    forall r :: r in rs <==>
      r.addr in input.funcs && r.addr !in input.bolted && r.addr !in onStack && FunctionRecord(input, r)
  }

  /** The records of the plan are those the tracer writes, all of them. */
  ghost predicate PlanWritten(input: Inputs, pl: Plan) {
    && pl.funcs == input.funcs && pl.bolted == input.bolted && pl.sites == input.sites
    && BoltedRecordsOf(input, pl.boltedRecs)
    && PatchRecordsOf(input, StackFuncs(pl), pl.patchRecs)
    && VtableRecordsOf(input, pl.vtableRecs)
    && UnmovedRecordsOf(input, StackFuncs(pl), pl.unmovedRecs)
  }

  function FilesOf(pl: Plan): Files {
    Files(Some(EncodeAll(pl.boltedRecs)), Some(EncodeAll(pl.patchRecs)),
          Some(EncodeAll(pl.vtableRecs)), Some(EncodeAll(pl.unmovedRecs)))
  }

  /** Some function lies below every stack address. */
  ghost predicate LookupPossible(input: Inputs, ips: seq<int>) {
    forall a, i :: a in input.funcs && 0 <= i < |ips| ==> exists b :: b in input.funcs && b < ips[i]
  }

  ghost predicate BoltedFile(input: Inputs, file: seq<Byte>) {
    exists rs: seq<Record> :: file == EncodeAll(rs) && BoltedRecordsOf(input, rs)
  }

  ghost predicate CallSiteFile(input: Inputs, onStack: Funcs, file: seq<Byte>) {
    exists rs: seq<Record> :: file == EncodeAll(rs) && PatchRecordsOf(input, onStack, rs)
  }

  ghost predicate UnmovedFile(input: Inputs, onStack: Funcs, file: seq<Byte>) {
    exists rs: seq<Record> :: file == EncodeAll(rs) && UnmovedRecordsOf(input, onStack, rs)
  }

  /** The symbol of a function, if there is one, can be sliced out of the file. */
  predicate FunctionReadable(input: Inputs, a: int) {
    a in input.symbols ==> Elf.FunctionBytes(input.elf, input.symbols[a]).Contents?
  }

  predicate MovedReadable(input: Inputs) {
    forall f :: f in input.bolted ==> FunctionReadable(input, input.bolted[f].movedAddr)
  }

  ghost predicate UnmovedReadable(input: Inputs, onStack: Funcs) {
    forall f :: f in input.funcs && f !in input.bolted && f !in onStack ==> FunctionReadable(input, f)
  }

  predicate VtablesReadable(elf: Elf.ElfFile) {
    forall k :: 0 <= k < |elf.symbols| ==> !Elf.ExtractVtable(elf, elf.symbols[k]).VtablePanic?
  }

  /** What is written before the process is paused, and when it can be. */
  method WriteBeforePause(input: Inputs) returns (ok: bool, boltedFile: seq<Byte>, vtableFile: seq<Byte>)
    ensures ok <==> MovedReadable(input) && VtablesReadable(input.elf)
    ensures ok ==> BoltedFile(input, boltedFile) && Elf.VtableFile(input.elf, vtableFile)
  {
    hide EncodeAll, Elf.FunctionBytes, Elf.FirstTable, Elf.ExtractVtable, FunctionRecord;
    var movedAddrs := GetMovedAddrToArray(input.bolted);
    ok, boltedFile := Elf.WriteFunctions(input.elf, input.symbols, movedAddrs);
    assert ok <==> MovedReadable(input) by { MovedAsked(input, movedAddrs); }
    if ok {
      BoltedWritten(input, movedAddrs);
    }
    var vtablesOk;
    vtablesOk, vtableFile := Elf.WriteVtable(input.elf);
    ok := ok && vtablesOk;
  }

  lemma MovedAsked(input: Inputs, addrs: seq<int>)
    requires forall a :: a in input.bolted ==> input.bolted[a].movedAddr in addrs
    requires forall m :: m in addrs ==> exists a :: a in input.bolted && input.bolted[a].movedAddr == m
    ensures Elf.Readable(input.elf, input.symbols, addrs) <==> MovedReadable(input)
  {
    hide Elf.FunctionBytes;
    if MovedReadable(input) {
      forall m | m in addrs && m in input.symbols
        ensures Elf.FunctionBytes(input.elf, input.symbols[m]).Contents?
      {
        var f :| f in input.bolted && input.bolted[f].movedAddr == m;
        assert FunctionReadable(input, input.bolted[f].movedAddr);
      }
    }
  }

  /** What is written once the stacks are known: the sets, the patches of the
      functions on a stack, and the code of those that are not. */
  method WriteAfterPause(input: Inputs, ips: seq<int>) returns (ok: bool, callFile: seq<Byte>, unmovedFile: seq<Byte>)
    requires InputsFine(input) && LookupPossible(input, ips)
    ensures CallSiteFile(input, OnStack(ips, input.funcs), callFile)
    ensures ok <==> UnmovedReadable(input, OnStack(ips, input.funcs))
    ensures ok ==> UnmovedFile(input, OnStack(ips, input.funcs), unmovedFile)
  {
    hide EncodeAll, Elf.FunctionBytes, OnStack, Attributed, InRange64, Elf.FunctionRecords, FunctionRecord;
    hide CallSiteFile, Patches;
    var unmoved := GetUnmovedFunc(input.funcs, input.bolted);
    var heap := ChangeFuncToHeap(input.funcs);
    LookupIsDefined(input.funcs, heap, ips);
    var onStack := GetFuncInCallStack(ips, heap, input.funcs);
    var rest := GetUnmovedFuncNotInCallStack(onStack, unmoved);
    var addrs := GetKeysToArray(rest);

    NearEnoughIn(input);
    callFile := ExtractCallSites(input.bolted, onStack, input.sites, input.index);
    PatchesWritten(input, onStack, callFile);

    ok, unmovedFile := Elf.WriteFunctions(input.elf, input.symbols, addrs);
    assert ok <==> UnmovedReadable(input, onStack) by { UnmovedAsked(input, onStack, addrs); }
    if ok {
      UnmovedWritten(input, onStack, addrs);
    }
  }

  lemma UnmovedAsked(input: Inputs, onStack: Funcs, addrs: seq<int>)
    requires forall a :: a in addrs <==> a in input.funcs && a !in input.bolted && a !in onStack
    ensures Elf.Readable(input.elf, input.symbols, addrs) <==> UnmovedReadable(input, onStack)
  {
    hide Elf.FunctionBytes;
  }

  /** The ELF reader panics nowhere. */
  ghost predicate FilesPossible(input: Inputs, onStack: Funcs) {
    MovedReadable(input) && VtablesReadable(input.elf) && UnmovedReadable(input, onStack)
  }

  /** The files hold what is due, record by record. */
  ghost predicate FilesWritten(input: Inputs, onStack: Funcs, files: Files) {
    && files.bolted.Some? && BoltedFile(input, files.bolted.value)
    && files.callSites.Some? && CallSiteFile(input, onStack, files.callSites.value)
    && files.vTables.Some? && Elf.VtableFile(input.elf, files.vTables.value)
    && files.unmoved.Some? && UnmovedFile(input, onStack, files.unmoved.value)
  }

  /** All four record files. `ok` is false when the ELF reader panicked. */
  method WriteFiles(input: Inputs, ips: seq<int>) returns (ok: bool, files: Files)
    requires InputsFine(input) && LookupPossible(input, ips)
    ensures ok <==> FilesPossible(input, OnStack(ips, input.funcs))
    ensures ok ==> FilesWritten(input, OnStack(ips, input.funcs), files)
  {
    hide OnStack, InputsFine, LookupPossible, BoltedFile, Elf.VtableFile, CallSiteFile, UnmovedFile;
    hide MovedReadable, VtablesReadable, UnmovedReadable;
    var boltedOk, boltedFile, vtableFile := WriteBeforePause(input);
    var stackOk, callFile, unmovedFile := WriteAfterPause(input, ips);
    ok := boltedOk && stackOk;
    files := Files(Some(boltedFile), Some(callFile), Some(vtableFile), Some(unmovedFile));
  }

  /** The plan behind written files. */
  lemma PlanOfFiles(input: Inputs, ips: seq<int>, files: Files, mem: Memory, img: Memory, code: set<int>) returns (pl: Plan)
    requires FilesWritten(input, OnStack(ips, input.funcs), files)
    ensures PlanWritten(input, pl) && files == FilesOf(pl)
    ensures pl.mem == mem && pl.img == img && pl.code == code && pl.ips == ips
  {
    hide EncodeAll, OnStack, BoltedRecordsOf, PatchRecordsOf, UnmovedRecordsOf;
    var onStack := OnStack(ips, input.funcs);
    var boltedRecs: seq<Record> :| files.bolted.value == EncodeAll(boltedRecs) && BoltedRecordsOf(input, boltedRecs);
    var patchRecs: seq<Record> :| files.callSites.value == EncodeAll(patchRecs) && PatchRecordsOf(input, onStack, patchRecs);
    var vtableRecs: seq<Record> :| files.vTables.value == EncodeAll(vtableRecs) && VtableRecordsOf(input, vtableRecs);
    var unmovedRecs: seq<Record> :| files.unmoved.value == EncodeAll(unmovedRecs) && UnmovedRecordsOf(input, onStack, unmovedRecs);
    pl := Plan(mem, input.funcs, input.bolted, input.sites, ips, img, boltedRecs, patchRecs, vtableRecs, unmovedRecs, code);
  }

  lemma NearEnoughIn(input: Inputs)
    requires InputsFine(input)
    ensures NearEnough(input.sites, input.bolted)
  {
  }

  lemma LookupIsDefined(m: Funcs, heap: Heap, ips: seq<int>)
    requires Sorted(heap) && Holds(heap, m)
    requires forall a, i :: a in m && 0 <= i < |ips| ==> exists b :: b in m && b < ips[i]
    ensures LookupDefined(heap, ips)
  {
    if heap != [] {
      assert heap[0] in heap;
      forall i | 0 <= i < |ips|
        ensures heap[0].key < ips[i]
      {
        assert heap[0].key in m;
        var b :| b in m && b < ips[i];
        var n :| 0 <= n < |heap| && heap[n] == Entry(b, m[b]);
      }
    }
  }

  lemma BoltedWritten(input: Inputs, addrs: seq<int>)
    requires Elf.Readable(input.elf, input.symbols, addrs)
    requires forall a :: a in input.bolted ==> input.bolted[a].movedAddr in addrs
    requires forall m :: m in addrs ==> exists a :: a in input.bolted && input.bolted[a].movedAddr == m
    ensures BoltedRecordsOf(input, Elf.FunctionRecords(input.elf, input.symbols, addrs))
  {
    hide Elf.FunctionBytes;
    forall r
      ensures r in Elf.FunctionRecords(input.elf, input.symbols, addrs) <==> IsMovedEntry(input, r.addr) && FunctionRecord(input, r)
    {
      Elf.FunctionRecordOf(input.elf, input.symbols, addrs, r);
    }
  }

  lemma UnmovedWritten(input: Inputs, onStack: Funcs, addrs: seq<int>)
    requires Elf.Readable(input.elf, input.symbols, addrs)
    requires forall a :: a in addrs <==> a in input.funcs && a !in input.bolted && a !in onStack
    ensures UnmovedRecordsOf(input, onStack, Elf.FunctionRecords(input.elf, input.symbols, addrs))
  {
    hide Elf.FunctionBytes;
    forall r
      ensures r in Elf.FunctionRecords(input.elf, input.symbols, addrs) <==>
        r.addr in input.funcs && r.addr !in input.bolted && r.addr !in onStack && FunctionRecord(input, r)
    {
      Elf.FunctionRecordOf(input.elf, input.symbols, addrs, r);
    }
  }

  lemma PatchesWritten(input: Inputs, onStack: Funcs, file: seq<Byte>)
    requires exists patched: seq<int> {:trigger AllCallMoved(input.sites, input.bolted, patched)} ::
      && NoDuplicates(patched)
      && (forall a :: a in patched <==>
            a in input.sites && input.sites[a].target in input.bolted && input.sites[a].belongedFunc in onStack)
      && AllCallMoved(input.sites, input.bolted, patched)
      && file == EncodeAll(Patches(input.sites, input.bolted, patched))
    ensures CallSiteFile(input, onStack, file)
  {
    hide Rel32.Rel32Bytes, EncodeAll;
    var patched: seq<int> :|
      && NoDuplicates(patched)
      && (forall a :: a in patched <==> NeedsPatch(input.sites, input.bolted, onStack, a))
      && AllCallMoved(input.sites, input.bolted, patched)
      && file == EncodeAll(Patches(input.sites, input.bolted, patched));
    var rs := Patches(input.sites, input.bolted, patched);
    forall r
      ensures r in rs <==> NeedsPatch(input.sites, input.bolted, onStack, r.addr) && r == Patch(input.sites, input.bolted, r.addr)
    {
      if r in rs {
        var i :| 0 <= i < |rs| && rs[i] == r;
        assert patched[i] in patched;
      }
      if NeedsPatch(input.sites, input.bolted, onStack, r.addr) && r == Patch(input.sites, input.bolted, r.addr) {
        var i :| 0 <= i < |patched| && patched[i] == r.addr;
        assert rs[i] == r;
      }
    }
  }

  // The insertion, on these files

  /** Every record the tracer writes can be read back by the library. */
  lemma RecordsSigned(input: Inputs, pl: Plan)
    requires InputsFine(input) && PlanWritten(input, pl)
    ensures forall r :: r in pl.boltedRecs || r in pl.patchRecs || r in pl.vtableRecs || r in pl.unmovedRecs ==> Signed(r)
  {
    hide Rel32.Rel32Bytes, OnStack, U64, Inverts, Elf.FunctionBytes, Elf.ExtractVtable;
    forall r | r in pl.boltedRecs || r in pl.unmovedRecs
      ensures Signed(r)
    {
      assert FunctionRecord(input, r);
      Elf.RecordsFit(input.elf, input.symbols[r.addr]);
    }
    forall r | r in pl.vtableRecs
      ensures Signed(r)
    {
      var k :| Elf.FirstTable(input.elf, k, r);
      assert input.elf.symbols[k] in input.elf.symbols;
      Elf.RecordsFit(input.elf, input.elf.symbols[k]);
    }
  }

  /** A stream without empty payloads reads back; with one it ends the process. */
  lemma StreamReads(rs: seq<Record>, pad: nat -> Byte)
    requires forall r :: r in rs ==> Signed(r)
    ensures ReadingOf(Read(EncodeAll(rs), pad), rs)
  {
    ReadOfEncode(rs, pad);
    BeforeEmptyStarts(rs);
    if forall r :: r in rs ==> r.payload != [] {
      BeforeEmptyIsAll(rs);
    }
  }

  lemma {:induction false} BeforeEmptyStarts(rs: seq<Record>)
    ensures BeforeEmpty(rs) <= rs
  {
    if rs != [] && rs[0].payload != [] {
      BeforeEmptyStarts(rs[1..]);
    }
  }

  /** The memory an insertion of the plan starts from, once the pages of the new
      text are mapped. */
  function Base(s: Space, pl: Plan): Memory { s.bytes + Zeros(AllPages(pl.boltedRecs)) }

  /** An insertion of the tracer's files that succeeds replays the plan: memory
      is the overlay of all four streams over the old memory, and the first
      stream went to fresh pages. */
  lemma InsertionRunsPlan(input: Inputs, pl: Plan, s: Space, pads: nat -> nat -> Byte)
    requires InputsFine(input) && PlanWritten(input, pl)
    requires Mapped(s) && pl.mem == s.bytes
    requires InsertAll(s, FilesOf(pl), pads).Running?
    ensures InsertAll(s, FilesOf(pl), pads).space.bytes == After(pl, Base(s, pl))
    ensures Extends(Base(s, pl), pl.mem) && Boundaries.NewTextFresh(pl)
    ensures Mapped(InsertAll(s, FilesOf(pl), pads).space)
  {
    hide EncodeAll, PlanWritten, InputsFine, Read, Replay, AllPages;
    var files := FilesOf(pl);
    RecordsSigned(input, pl);
    InsertionEffect(s, files, pads);
    StreamReads(pl.boltedRecs, pads(1));
    StreamReads(pl.patchRecs, pads(2));
    StreamReads(pl.vtableRecs, pads(3));
    StreamReads(pl.unmovedRecs, pads(4));
    var text := pl.patchRecs + pl.vtableRecs + pl.unmovedRecs;
    assert TextRecords(files, pads) == text && BoltedRecords(files, pads) == pl.boltedRecs;
    ReplayAppend(Base(s, pl), pl.boltedRecs, text);
    StaysMapped(s, files, pads);
    forall r, k | r in pl.boltedRecs && Covers(r, k)
      ensures k !in pl.mem
    {
      CoveredPage(r, k);
      PageVisited(pl.boltedRecs, PageOf(k));
    }
  }

  /** No record is empty; the insertion library cannot read an empty one. */
  predicate NoneEmpty(pl: Plan) {
    forall r :: r in AllRecords(pl) ==> r.payload != []
  }

  /** The insertion of the tracer's files goes through exactly when no record is
      empty, the pages of the new text are free, and those of the other records
      are mapped, be it by the first phase. */
  lemma InsertionGoesThrough(input: Inputs, pl: Plan, s: Space, pads: nat -> nat -> Byte)
    requires InputsFine(input) && PlanWritten(input, pl)
    ensures InsertAll(s, FilesOf(pl), pads).Running? <==>
      && (forall r :: r in AllRecords(pl) ==> r.payload != [])
      && AllPages(pl.boltedRecs) !! s.perm.Keys
      && AllPages(pl.patchRecs + pl.vtableRecs + pl.unmovedRecs) <= s.perm.Keys + AllPages(pl.boltedRecs)
  {
    hide EncodeAll, PlanWritten, InputsFine, Read, AllPages, AllRecords, InsertAll, BoltedEffect, TextEffect;
    var files := FilesOf(pl);
    RecordsSigned(input, pl);
    InsertionEffect(s, files, pads);
    StreamFinishes(pl.boltedRecs, pads(1));
    StreamFinishes(pl.patchRecs, pads(2));
    StreamFinishes(pl.vtableRecs, pads(3));
    StreamFinishes(pl.unmovedRecs, pads(4));
    EmptyAnywhere(pl);
  }

  lemma EmptyAnywhere(pl: Plan)
    ensures NoneEmpty(pl) <==>
      && (forall r :: r in pl.boltedRecs ==> r.payload != []) && (forall r :: r in pl.patchRecs ==> r.payload != [])
      && (forall r :: r in pl.vtableRecs ==> r.payload != []) && (forall r :: r in pl.unmovedRecs ==> r.payload != [])
  {
    hide AllRecords;
    forall r
      ensures r in AllRecords(pl) <==> r in pl.boltedRecs || r in pl.patchRecs || r in pl.vtableRecs || r in pl.unmovedRecs
    {
      InAll(pl, r);
    }
  }

  /** An insertion that would go through can be stopped anywhere on its way. */
  lemma InsertionReaches(input: Inputs, pl: Plan, s: Space, pads: nat -> nat -> Byte, n: nat, m: nat)
    requires InputsFine(input) && PlanWritten(input, pl)
    requires InsertAll(s, FilesOf(pl), pads).Running?
    ensures InsertUntil(s, FilesOf(pl), pads, n, m).Running?
  {
    hide InputsFine, PlanWritten, InsertAll, InsertUntil;
    StopsOnTheWay(s, FilesOf(pl), pads, n, m);
  }

  /** A stream reads to its end exactly when no payload is empty. */
  lemma StreamFinishes(rs: seq<Record>, pad: nat -> Byte)
    requires forall r :: r in rs ==> Signed(r)
    ensures Read(EncodeAll(rs), pad).ending.Finished? <==> forall r :: r in rs ==> r.payload != []
    ensures (forall r :: r in rs ==> r.payload != []) ==> Read(EncodeAll(rs), pad).records == rs
  {
    ReadOfEncode(rs, pad);
    if forall r :: r in rs ==> r.payload != [] {
      BeforeEmptyIsAll(rs);
    }
  }

  // From the ELF file and the disassembly to the assumptions on the streams

  /** The records written for the functions of the binary at `a`. */
  ghost predicate IsWritten(input: Inputs, a: int) {
    (a in input.funcs && a !in input.bolted) || IsMovedEntry(input, a)
  }

  /** The loaded sections of the BOLTed binary; the functions that are written
      lie in one, each unmoved one within its old extent, and each v-table is
      part of the image, if only as what the writer takes for it. */
  ghost predicate BinaryFine(input: Inputs, img: Memory) {
    && Elf.Loaded(input.elf, img)
    && (forall a :: a in input.symbols && IsWritten(input, a) ==> Elf.WithinSection(input.elf, input.symbols[a]))
    && (forall s :: s in input.elf.symbols && Elf.ExtractVtable(input.elf, s).Table? ==>
          Elf.WithinSection(input.elf, s) || Elf.IsSliceOf(img, Elf.ExtractVtable(input.elf, s).record))
    && (forall a :: a in input.funcs && a !in input.bolted && a in input.symbols ==>
          input.symbols[a].size <= input.funcs[a].originalSize)
  }

  lemma FunctionRecordLoaded(input: Inputs, img: Memory, r: Record)
    requires InputsFine(input) && BinaryFine(input, img) && FunctionRecord(input, r) && IsWritten(input, r.addr)
    ensures Elf.IsSliceOf(img, r) && |r.payload| == input.symbols[r.addr].size
  {
    hide Elf.FunctionBytes, InRange64, Inverts;
    assert |input.elf.bytes| < TWO_63 by { FileSize(input); }
    Elf.FunctionBytesAreLoaded(input.elf, img, input.symbols[r.addr]);
  }

  lemma FileSize(input: Inputs)
    requires InputsFine(input)
    ensures |input.elf.bytes| < TWO_63
  {
  }

  lemma VtableRecordLoaded(input: Inputs, img: Memory, k: int, r: Record)
    requires InputsFine(input) && BinaryFine(input, img) && Elf.FirstTable(input.elf, k, r)
    ensures Elf.IsSliceOf(img, r)
  {
    hide InRange64, Inverts;
    FileSize(input);
    if Elf.WithinSection(input.elf, input.elf.symbols[k]) {
      Elf.VtableBytesAreLoaded(input.elf, img, input.elf.symbols[k]);
    }
  }

  /** The streams the tracer writes meet what the replacement needs of them, if
      new text is fresh and the v-tables lie apart from the old instructions. */
  lemma StreamsFine(input: Inputs, pl: Plan)
    requires InputsFine(input) && PlanWritten(input, pl) && BinaryFine(input, pl.img)
    requires Boundaries.NewTextFresh(pl)
    requires forall r :: r in pl.vtableRecs ==> !CoversInstruction(pl, r)
    ensures RecordsFine(pl)
  {
    hide InputsFine, BinaryFine, FunctionRecord, CoversInstruction, StackFuncs, Elf.FirstTable, Elf.IsSliceOf;
    NewTextApart(pl);
    forall r | r in pl.boltedRecs
      ensures Elf.IsSliceOf(pl.img, r)
    {
      FunctionRecordLoaded(input, pl.img, r);
    }
    forall r | r in pl.vtableRecs
      ensures Elf.IsSliceOf(pl.img, r)
    {
      var k :| Elf.FirstTable(input.elf, k, r);
      VtableRecordLoaded(input, pl.img, k, r);
    }
    forall r | r in pl.unmovedRecs
      ensures Elf.IsSliceOf(pl.img, r) && |r.payload| <= pl.funcs[r.addr].originalSize
    {
      FunctionRecordLoaded(input, pl.img, r);
      UnmovedFits(input, pl.img, r);
    }
  }

  /** Text on pages the process did not have covers none of its instructions. */
  lemma NewTextApart(pl: Plan)
    requires Boundaries.NewTextFresh(pl)
    ensures forall r :: r in pl.boltedRecs ==> !CoversInstruction(pl, r)
  {
    hide Decode;
    forall r, a, k | r in pl.boltedRecs && a in pl.code && Decode(pl.mem, a).Inst? && a <= k < a + Decode(pl.mem, a).size
      ensures !Covers(r, k)
    {
      DecodedSize(pl.mem, a);
    }
  }

  /** Nor is a new entry one of them. */
  lemma EntriesAreNew(pl: Plan, l: Link)
    requires Boundaries.NewTextFresh(pl) && ProgramFine(pl) && BoltFine(pl, l) && DistinctEntries(pl.bolted)
    requires forall f :: f in pl.bolted ==> 0 <= pl.bolted[f].movedAddr < TWO_63
    ensures EntriesFresh(pl)
  {
    hide Decode, Corresponds, InstructionFine;
    forall f | f in pl.bolted
      ensures pl.bolted[f].movedAddr !in pl.code
    {
      var b := pl.bolted[f].movedAddr;
      assert InNewText(pl, b);
      if b in pl.code {
        InstructionMapped(pl, b);
      }
    }
  }

  lemma InstructionMapped(pl: Plan, a: int)
    requires ProgramFine(pl) && a in pl.code
    ensures a in pl.mem
  {
    hide Decode;
    Fine(pl, a);
    DecodedSize(pl.mem, a);
  }

  /** Every cell read by an indirect call is as the v-tables have it. */
  ghost predicate TablesFine(pl: Plan) {
    forall a :: a in pl.code && Decode(pl.mem, a).Inst? && Decode(pl.mem, a).op.CallSlot? && Has(pl.mem, Decode(pl.mem, a).op.slot, 8)
      ==> TableFine(pl, Decode(pl.mem, a).op.slot)
  }

  lemma CellsFine(pl: Plan)
    requires Boundaries.NewTextFresh(pl) && TablesFine(pl)
    ensures SlotsFine(pl)
  {
    hide Decode, TableFine;
  }

  lemma UnmovedFits(input: Inputs, img: Memory, r: Record)
    requires BinaryFine(input, img) && FunctionRecord(input, r) && r.addr in input.funcs && r.addr !in input.bolted
    ensures input.symbols[r.addr].size <= input.funcs[r.addr].originalSize
  {
  }

  // What the replacement leaves out nothing of

  /** Every recorded call of a moved function, in a function with a frame, calls
      the moved entry afterwards; every other instruction of such a function keeps
      its bytes. */
  lemma OnStackCallsPatched(input: Inputs, pl: Plan, l: Link, base: Memory)
    requires PlanWritten(input, pl) && PlanFine(pl, l) && Extends(base, pl.mem)
    ensures forall a :: a in pl.sites && pl.sites[a].target in pl.bolted && pl.sites[a].belongedFunc in StackFuncs(pl) ==>
      Decode(After(pl, base), a) == Inst(Call(pl.bolted[pl.sites[a].target].movedAddr), 5)
    ensures forall f, a :: (&& f in StackFuncs(pl) && a in pl.code && InFunc(pl, f, a)
        && !(a in pl.sites && pl.sites[a].target in pl.bolted && pl.sites[a].belongedFunc in StackFuncs(pl))) ==>
      Agree(pl.mem, After(pl, base), a, Decode(pl.mem, a).size)
  {
    hide BoltFine, SlotsFine, RecordsFine, ProgramFine, EntriesFresh, PatchesFine, After, Decode, OnStack, Rel32.Rel32Bytes, Agree, InFunc;
    hide BoltedRecordsOf, VtableRecordsOf, UnmovedRecordsOf;
    CodeDecodes(pl);
    forall a | a in pl.sites && pl.sites[a].target in pl.bolted && pl.sites[a].belongedFunc in StackFuncs(pl)
      ensures Decode(After(pl, base), a) == Inst(Call(pl.bolted[pl.sites[a].target].movedAddr), 5)
    {
      assert Patch(pl.sites, pl.bolted, a) in pl.patchRecs;
      assert Patched(pl, a);
      DecodePatched(pl, base, a);
    }
    forall f, a | f in StackFuncs(pl) && a in pl.code && InFunc(pl, f, a)
      && !(a in pl.sites && pl.sites[a].target in pl.bolted && pl.sites[a].belongedFunc in StackFuncs(pl))
      ensures Agree(pl.mem, After(pl, base), a, Decode(pl.mem, a).size)
    {
      OnStackInstruction(pl, base, f, a);
    }
  }

  lemma CodeDecodes(pl: Plan)
    requires ProgramFine(pl)
    ensures forall a :: a in pl.code ==> Decode(pl.mem, a).Inst?
  {
    hide Decode;
    forall a | a in pl.code
      ensures Decode(pl.mem, a).Inst?
    {
      Fine(pl, a);
    }
  }

  /** Every function and v-table that is due lies in memory afterwards, byte for
      byte as in the BOLTed image. */
  lemma CodeInPlace(input: Inputs, pl: Plan, l: Link, base: Memory)
    requires InputsFine(input) && BinaryFine(input, pl.img) && PlanWritten(input, pl) && PlanFine(pl, l)
    ensures forall f, k ::
      (&& f in input.bolted && input.bolted[f].movedAddr in input.symbols
       && input.bolted[f].movedAddr <= k < input.bolted[f].movedAddr + input.symbols[input.bolted[f].movedAddr].size) ==>
      k in After(pl, base) && k in pl.img && After(pl, base)[k] == pl.img[k]
    ensures forall f, k ::
      (&& f in input.funcs && f !in input.bolted && f !in OnStack(pl.ips, input.funcs) && f in input.symbols
       && f <= k < f + input.symbols[f].size) ==>
      k in After(pl, base) && k in pl.img && After(pl, base)[k] == pl.img[k]
    ensures forall n, r, k :: Elf.FirstTable(input.elf, n, r) && Covers(r, k) ==>
      k in After(pl, base) && k in pl.img && After(pl, base)[k] == pl.img[k]
  {
    hide BoltFine, SlotsFine, RecordsFine, ProgramFine, EntriesFresh, PatchesFine, After, Decode, OnStack, Rel32.Rel32Bytes;
    hide InputsFine, BinaryFine, Elf.FunctionBytes, Elf.FirstTable, Elf.WithinSection, PatchRecordsOf;
    forall f, k | f in input.bolted && input.bolted[f].movedAddr in input.symbols
      && input.bolted[f].movedAddr <= k < input.bolted[f].movedAddr + input.symbols[input.bolted[f].movedAddr].size
      ensures k in After(pl, base) && k in pl.img && After(pl, base)[k] == pl.img[k]
    {
      var r := RecordAt(input, pl.img, input.bolted[f].movedAddr);
      assert IsMovedEntry(input, r.addr) && r in pl.boltedRecs;
      ByteFromImage(pl, base, r, k);
    }
    forall f, k | f in input.funcs && f !in input.bolted && f !in OnStack(pl.ips, input.funcs) && f in input.symbols
      && f <= k < f + input.symbols[f].size
      ensures k in After(pl, base) && k in pl.img && After(pl, base)[k] == pl.img[k]
    {
      var r := RecordAt(input, pl.img, f);
      assert r in pl.unmovedRecs;
      ByteFromImage(pl, base, r, k);
    }
    forall n, r, k | Elf.FirstTable(input.elf, n, r) && Covers(r, k)
      ensures k in After(pl, base) && k in pl.img && After(pl, base)[k] == pl.img[k]
    {
      assert r in pl.vtableRecs;
      ByteFromImage(pl, base, r, k);
    }
  }

  /** The record of a function that is due. */
  lemma RecordAt(input: Inputs, img: Memory, a: int) returns (r: Record)
    requires InputsFine(input) && BinaryFine(input, img) && a in input.symbols && IsWritten(input, a)
    ensures r.addr == a && FunctionRecord(input, r) && |r.payload| == input.symbols[a].size
  {
    hide InRange64, Inverts;
    FileSize(input);
    Elf.FunctionBytesAreLoaded(input.elf, img, input.symbols[a]);
    r := Record(a, Elf.FunctionBytes(input.elf, input.symbols[a]).bs);
  }

  // The whole replacement

  /** The disassembly prints the code of the process, and no listed function is
      longer than the symbol map has it. */
  ghost predicate ListingFine(b: Binary, pl: Plan) {
    forall f :: f in ScannedFuncs(b.symbols) ==>
      && Disassembly.FaithfulListing(pl.mem, f, b.disasm(f))
      && (f.start in pl.funcs ==> f.size <= pl.funcs[f.start].originalSize)
  }

  /** What is assumed of the program, of BOLT and of the disassembly. */
  ghost predicate WorldFine(b: Binary, input: Inputs, pl: Plan, l: Link) {
    && BinaryFine(input, pl.img) && ListingFine(b, pl)
    && ProgramFine(pl) && BoltFine(pl, l) && DistinctEntries(pl.bolted) && TablesFine(pl)
    && (forall r :: r in pl.vtableRecs ==> !CoversInstruction(pl, r))
    && (forall a :: NeedsPatch(pl.sites, pl.bolted, StackFuncs(pl), a) ==>
          a in pl.code && Encodable(Distance(pl.sites, pl.bolted, a)))
  }

  /** How far the library comes before the hijacked thread stops. The tracer sees
      a signal only, and cannot tell. */
  datatype Stop = RanToEnd | StoppedAt(records: nat, bytes: nat)

  /** How a replacement ends: the tracer or the process exits, no thread could
      run the library, it was stopped on its way, or it ran to its end. */
  datatype Ended = Quitted | NothingRan | CutShort | Inserted

  /** Memory when the copying stops after `n` records and `m` bytes. */
  function Midway(s: Space, pl: Plan, n: nat, m: nat): Memory {
    Replay(s.bytes + Zeros(AllPages(Begun(pl.boltedRecs, n))), Torn(AllRecords(pl), n, m))
  }

  /** main, from the pause on: write the files, hijack the first thread that can
      run, let it replay them, and give every thread its registers back. `written`
      says whether there are files, `ran` which thread was taken, `answers` what
      the kernel answered for the threads tried, and `done` that the library ran
      in that thread until it stopped and the thread has its registers back. */
  method ReplaceCode(input: Inputs, ips: seq<int>, space: AddressSpace, tracee: Tracee, tids: seq<int>, libAddr: int,
                     kernels: seq<Kernel>, conts: seq<Answer>, stop: Stop, pads: nat -> nat -> Byte,
                     ghost img: Memory, ghost code: set<int>)
    returns (ending: Ended, ghost pl: Plan, ghost written: bool, ghost ran: int, ghost answers: seq<Answer>, ghost done: bool)
    requires InputsFine(input) && LookupPossible(input, ips)
    requires |kernels| == |conts| == |tids|
    requires forall i :: 0 <= i < |tids| ==> tids[i] in tracee.regs && tids[i] in tracee.fp
    requires Mapped(space.Now())
    modifies space, tracee
    ensures pl.mem == old(space.bytes) && pl.img == img && pl.code == code && pl.ips == ips
    ensures written <==>
      && (forall f :: f in input.bolted && input.bolted[f].movedAddr in input.symbols ==>
            Elf.FunctionBytes(input.elf, input.symbols[input.bolted[f].movedAddr]).Contents?)
      && (forall f :: f in input.funcs && f !in input.bolted && f !in OnStack(ips, input.funcs) && f in input.symbols ==>
            Elf.FunctionBytes(input.elf, input.symbols[f]).Contents?)
      && (forall k :: 0 <= k < |input.elf.symbols| ==> !Elf.ExtractVtable(input.elf, input.elf.symbols[k]).VtablePanic?)
    ensures written ==> PlanWritten(input, pl)
    ensures written ==> 0 <= ran <= |tids| && |answers| == if ran < |tids| then ran + 1 else ran
    ensures written ==> forall j :: 0 <= j < |answers| ==>
      answers[j] == kernels[j](Regs(libAddr, HijackedStack(old(tracee.regs)[tids[j]].rsp), old(tracee.regs)[tids[j]].rest))
    ensures written ==> forall j :: 0 <= j < |answers| ==>
      (j < ran <==> (&& answers[j].setOk && answers[j].status.Stopped? && answers[j].resetOk && answers[j].resetFpOk
                     && (answers[j].status.sig != 5 || answers[j].regs.rip <= libAddr)))
    ensures done <==>
      && written && ran < |tids|
      && answers[ran].setOk && answers[ran].status == Stopped(5) && answers[ran].regs.rip > libAddr
      && conts[ran].status.Stopped? && conts[ran].resetOk && conts[ran].resetFpOk
    ensures ending.NothingRan? <==> written && ran == |tids|
    ensures ending.Inserted? <==>
      && done && stop.RanToEnd?
      && (forall r :: r in AllRecords(pl) ==> r.payload != [])
      && AllPages(pl.boltedRecs) !! old(space.perm).Keys
      && AllPages(pl.patchRecs + pl.vtableRecs + pl.unmovedRecs) <= old(space.perm).Keys + AllPages(pl.boltedRecs)
    ensures ending.CutShort? <==>
      && done && stop.StoppedAt?
      && InsertUntil(old(space.Now()), FilesOf(pl), pads, stop.records, stop.bytes).Running?
    ensures !ending.Quitted? ==> tracee.regs == old(tracee.regs) && tracee.fp == old(tracee.fp)
    ensures ending.NothingRan? ==> space.Now() == old(space.Now())
    ensures ending.Inserted? ==> InsertAll(old(space.Now()), FilesOf(pl), pads) == Running(space.Now()) && Mapped(space.Now())
    ensures ending.Inserted? ==> space.bytes == After(pl, Base(old(space.Now()), pl))
    ensures ending.Inserted? ==> Extends(Base(old(space.Now()), pl), pl.mem) && Boundaries.NewTextFresh(pl)
    ensures ending.CutShort? ==> space.bytes == Midway(old(space.Now()), pl, stop.records, stop.bytes)
  {
    hide FilesPossible, FilesWritten, OnStack, InputsFine, LookupPossible, PlanWritten, Mapped, InsertAll, InsertUntil, After, Base, Midway, Extends, Boundaries.NewTextFresh;
    hide Elf.FunctionBytes, Elf.ExtractVtable, AllPages, HijackedStack, AllRecords, FilesOf;
    var ok, files := WriteFiles(input, ips);
    PossibleMeans(input, OnStack(ips, input.funcs));
    written, ran, answers, done := ok, 0, [], false;
    if !ok {
      pl := Plan(space.bytes, input.funcs, input.bolted, input.sites, ips, img, [], [], [], [], code);
      return Quitted, pl, written, ran, answers, done;
    }
    pl := PlanOfFiles(input, ips, files, space.bytes, img, code);
    InsertionGoesThrough(input, pl, old(space.Now()), pads);
    var quit, tried, heard := tracee.RunLibrary(tids, libAddr, kernels, conts);
    ran, answers := tried, heard;
    done := !quit && tried < |tids|;
    if quit {
      return Quitted, pl, written, ran, answers, done;
    }
    if tried == |tids| {
      return NothingRan, pl, written, ran, answers, done;
    }
    var inserted;
    match stop
    case RanToEnd =>
      inserted := space.InsertMachineCode(files, pads);
      if inserted {
        InsertionRunsPlan(input, pl, old(space.Now()), pads);
      }
      ending := if inserted then Inserted else Quitted;  // exit(-1) inside the process
    case StoppedAt(n, m) =>
      inserted := space.InsertMachineCodeUntil(files, pads, n, m);
      if inserted {
        InsertionStops(input, pl, old(space.Now()), pads, n, m);
      }
      ending := if inserted then CutShort else Quitted;
  }

  lemma PossibleMeans(input: Inputs, onStack: Funcs)
    ensures FilesPossible(input, onStack) <==>
      && (forall f :: f in input.bolted && input.bolted[f].movedAddr in input.symbols ==>
            Elf.FunctionBytes(input.elf, input.symbols[input.bolted[f].movedAddr]).Contents?)
      && (forall f :: f in input.funcs && f !in input.bolted && f !in onStack && f in input.symbols ==>
            Elf.FunctionBytes(input.elf, input.symbols[f]).Contents?)
      && (forall k :: 0 <= k < |input.elf.symbols| ==> !Elf.ExtractVtable(input.elf, input.elf.symbols[k]).VtablePanic?)
  {
    hide Elf.FunctionBytes, Elf.ExtractVtable;
    assert MovedReadable(input) <==> forall f :: f in input.bolted ==> FunctionReadable(input, input.bolted[f].movedAddr);
    assert UnmovedReadable(input, onStack) <==>
      forall f :: f in input.funcs && f !in input.bolted && f !in onStack ==> FunctionReadable(input, f);
  }

  /** A library that is stopped on its way has copied a torn prefix of the plan. */
  lemma InsertionStops(input: Inputs, pl: Plan, s: Space, pads: nat -> nat -> Byte, n: nat, m: nat)
    requires InputsFine(input) && PlanWritten(input, pl) && pl.mem == s.bytes
    requires InsertUntil(s, FilesOf(pl), pads, n, m).Running?
    ensures InsertUntil(s, FilesOf(pl), pads, n, m).space.bytes == Midway(s, pl, n, m)
  {
    hide EncodeAll, PlanWritten, InputsFine, Read, Replay, AllPages, Torn;
    var files, texts := FilesOf(pl), [pl.patchRecs, pl.vtableRecs, pl.unmovedRecs];
    RecordsSigned(input, pl);
    StreamReads(pl.boltedRecs, pads(1));
    StreamReads(pl.patchRecs, pads(2));
    StreamReads(pl.vtableRecs, pads(3));
    StreamReads(pl.unmovedRecs, pads(4));
    StoppedEffect(s, files, pads, pl.boltedRecs, texts, n, m);
    JoinThree(pl.patchRecs, pl.vtableRecs, pl.unmovedRecs);
  }

  /** Everything the replacement theorem asks of the plan. */
  lemma WorldGivesPlan(b: Binary, input: Inputs, pl: Plan, l: Link)
    requires Prepared(b, input) && NumbersFine(b) && PlanWritten(input, pl) && WorldFine(b, input, pl, l)
    requires Boundaries.NewTextFresh(pl)
    ensures PlanFine(pl, l)
  {
    hide BinaryFine, ProgramFine, BoltFine, TablesFine, RecordsFine, SlotsFine, CoversInstruction, SymbolsIndexed;
    hide OnStack, Encodable, Tabulates, Inverts, Listed, SitesOfFuncs, ScannedFuncs, Boundaries.NewTextFresh;
    hide Disassembly.FaithfulListing, FirstToDeclare, Rel32.Rel32Bytes, Elf.ExtractVtable, DistinctEntries, Elf.FirstTable;
    PreparedFine(b, input);
    StreamsFine(input, pl);
    EntriesAreNew(pl, l);
    CellsFine(pl);
    Disassembly.ExtractedSitesFine(pl, ScannedFuncs(b.symbols), b.disasm);
  }

  /** From what the tools say to the resumed process: a replacement that went
      through leaves every run as it was. */
  lemma ReplaceCodePreservesBehaviour<D>(b: Binary, input: Inputs, pl: Plan, l: Link, base: Memory, cpu: Cpu<D>, p: Process<D>)
    requires Prepared(b, input) && NumbersFine(b) && PlanWritten(input, pl) && WorldFine(b, input, pl, l)
    requires Extends(base, pl.mem) && Boundaries.NewTextFresh(pl)
    requires Unwound(pl, p) && LastFunctionQuiet(pl) && CallsEntries(OldImage(pl), Entries(pl), cpu, p)
    ensures EntriesFresh(pl) && SameBehaviour(OldImage(pl), p, NewImage(pl, base), p, cpu)
  {
    hide Prepared, NumbersFine, PlanWritten, WorldFine, SameBehaviour, Unwound, LastFunctionQuiet, CallsEntries;
    WorldGivesPlan(b, input, pl, l);
    ReplacementPreservesBehaviour(pl, l, base, cpu, p);
  }

  /** So does one whose library was stopped on its way, unless that was within a
      record that rewrites old code or a v-table. */
  lemma CutShortPreservesBehaviour<D>(b: Binary, input: Inputs, pl: Plan, l: Link, s: Space, n: nat, m: nat, cpu: Cpu<D>, p: Process<D>)
    requires Prepared(b, input) && NumbersFine(b) && PlanWritten(input, pl) && WorldFine(b, input, pl, l)
    requires pl.mem == s.bytes && AllPages(pl.boltedRecs) !! s.perm.Keys && Mapped(s)
    requires Disjoint(pl.vtableRecs) && Boundaries.SafeStop(pl, n, m)
    requires Unwound(pl, p) && LastFunctionQuiet(pl) && CallsEntries(OldImage(pl), Entries(pl), cpu, p)
    ensures EntriesFresh(pl) && SameBehaviour(OldImage(pl), p, Image(Midway(s, pl, n, m), NewNames(pl)), p, cpu)
  {
    hide Prepared, NumbersFine, PlanWritten, WorldFine, SameBehaviour, Unwound, LastFunctionQuiet, CallsEntries, Replay, Disjoint, AllRecords, Boundaries.SafeStop;
    FreePages(s, pl, n);
    WorldGivesPlan(b, input, pl, l);
    Boundaries.SafeWhenStopped(pl, l, s.bytes + Zeros(AllPages(Begun(pl.boltedRecs, n))), n, m, cpu, p);
  }

  /** When the pages of the new text are free, mapping some of them changes no
      byte of the process. */
  lemma FreePages(s: Space, pl: Plan, n: nat)
    requires pl.mem == s.bytes && AllPages(pl.boltedRecs) !! s.perm.Keys && Mapped(s)
    ensures Boundaries.NewTextFresh(pl)
    ensures Extends(s.bytes + Zeros(AllPages(Begun(pl.boltedRecs, n))), pl.mem)
  {
    hide AllPages;
    forall r, k | r in pl.boltedRecs && Covers(r, k)
      ensures k !in pl.mem
    {
      CoveredPage(r, k);
      PageVisited(pl.boltedRecs, PageOf(k));
    }
    var begun := Begun(pl.boltedRecs, n);
    forall q | q in AllPages(begun)
      ensures q in AllPages(pl.boltedRecs)
    {
      PageVisited(begun, q);
      PageVisited(pl.boltedRecs, q);
    }
  }

  // Permissions of the pages

  /** The program's instructions lie on executable pages. */
  ghost predicate CodeExecutable(pl: Plan, s: Space) {
    forall a, k :: a in pl.code && Decode(pl.mem, a).Inst? && a <= k < a + Decode(pl.mem, a).size ==>
      PageOf(k) in s.perm && s.perm[PageOf(k)].exec
  }

  /** No page loses the permission to execute, and those of every record have it. */
  lemma ExecutableAfter(input: Inputs, pl: Plan, s: Space, pads: nat -> nat -> Byte, p: int)
    requires InputsFine(input) && PlanWritten(input, pl) && InsertAll(s, FilesOf(pl), pads).Running?
    requires (p in s.perm && s.perm[p].exec) || p in AllPages(AllRecords(pl))
    ensures var perm := InsertAll(s, FilesOf(pl), pads).space.perm; p in perm && perm[p].exec
  {
    hide EncodeAll, PlanWritten, InputsFine, Read, AllPages, InsertAll;
    RecordsSigned(input, pl);
    InsertionEffect(s, FilesOf(pl), pads);
    StreamReads(pl.boltedRecs, pads(1));
    StreamReads(pl.patchRecs, pads(2));
    StreamReads(pl.vtableRecs, pads(3));
    StreamReads(pl.unmovedRecs, pads(4));
    var text := pl.patchRecs + pl.vtableRecs + pl.unmovedRecs;
    assert TextRecords(FilesOf(pl), pads) == text && BoltedRecords(FilesOf(pl), pads) == pl.boltedRecs;
    assert AllRecords(pl) == pl.boltedRecs + text;
    AllPagesAppend(pl.boltedRecs, text);
    PermissionOutcome(s, FilesOf(pl), pads, p, p * 4096);
    PermissionBits(s, FilesOf(pl), pads, p);
  }

  /** Where old and new code correspond, the new instruction lies on executable
      pages: kept old code, overwritten functions and new text alike. */
  lemma MixedExecutable(input: Inputs, pl: Plan, l: Link, s: Space, pads: nat -> nat -> Byte, base: Memory, a: int, b: int)
    requires InputsFine(input) && PlanWritten(input, pl) && PlanFine(pl, l) && Extends(base, pl.mem) && CodeExecutable(pl, s)
    requires InsertAll(s, FilesOf(pl), pads).Running? && Mixed(pl, l, a, b)
    ensures Decode(After(pl, base), b).Inst?
    ensures var perm := InsertAll(s, FilesOf(pl), pads).space.perm;
      forall k :: b <= k < b + Decode(After(pl, base), b).size ==> PageOf(k) in perm && perm[PageOf(k)].exec
  {
    hide InputsFine, PlanWritten, ProgramFine, RecordsFine, PatchesFine, SlotsFine, BoltFine, EntriesFresh, After, Decode, OnStack, Replacement.Kept;
    hide FilesOf, InsertAll, AllPages, Rel32.Rel32Bytes, AllRecords, Continues, Patched;
    if a == b && Replacement.Kept(pl, a) {
      Fine(pl, a);
      if Patched(pl, a) {
        DecodePatched(pl, base, a);
        PatchedSite(pl, a);
      } else {
        DecodeKept(pl, base, a);
      }
      forall k | a <= k < a + Decode(After(pl, base), b).size
        ensures var perm := InsertAll(s, FilesOf(pl), pads).space.perm; PageOf(k) in perm && perm[PageOf(k)].exec
      {
        ExecutableAfter(input, pl, s, pads, PageOf(k));
      }
    } else {
      var r :| r in Bodies(pl) && Covers(r, b);
      PairFine(pl, l, r, a, b);
      DecodeBody(pl, base, r, b);
      InAll(pl, r);
      forall k | b <= k < b + Decode(After(pl, base), b).size
        ensures var perm := InsertAll(s, FilesOf(pl), pads).space.perm; PageOf(k) in perm && perm[PageOf(k)].exec
      {
        CoveredPage(r, k);
        PageVisited(AllRecords(pl), PageOf(k));
        ExecutableAfter(input, pl, s, pads, PageOf(k));
      }
    }
  }

  /** However long the resumed process runs, every thread stands at an instruction
      all of whose bytes lie on pages it may execute. */
  lemma ResumedRunsExecutable<D>(b: Binary, input: Inputs, pl: Plan, l: Link, s: Space, pads: nat -> nat -> Byte,
                                 cpu: Cpu<D>, p: Process<D>, schedule: seq<nat>, tid: nat)
    requires Prepared(b, input) && NumbersFine(b) && PlanWritten(input, pl) && WorldFine(b, input, pl, l)
    requires Mapped(s) && pl.mem == s.bytes && CodeExecutable(pl, s) && InsertAll(s, FilesOf(pl), pads).Running?
    requires Unwound(pl, p) && LastFunctionQuiet(pl) && CallsEntries(OldImage(pl), Entries(pl), cpu, p)
    ensures EntriesFresh(pl)
    ensures var t, names := InsertAll(s, FilesOf(pl), pads).space, NewNames(pl);
      Run(Image(t.bytes, names), cpu, p, schedule).Moved? && tid < |p.threads| ==>
        var q := Run(Image(t.bytes, names), cpu, p, schedule).proc;
        && tid < |q.threads| && Decode(t.bytes, q.threads[tid].pc).Inst?
        && forall k :: q.threads[tid].pc <= k < q.threads[tid].pc + Decode(t.bytes, q.threads[tid].pc).size ==>
             k / 4096 in t.perm && t.perm[k / 4096].exec
  {
    hide Prepared, NumbersFine, PlanWritten, WorldFine, Unwound, LastFunctionQuiet, CallsEntries, Mapped, CodeExecutable, InsertAll, FilesOf;
    hide Boundaries.NewTextFresh, Decode, Entries, Base, InputsFine, NewNames, After, Mixed, Run, Replay, Extends;
    hide ProgramFine, RecordsFine, PatchesFine, SlotsFine, BoltFine, EntriesFresh, SameBehaviour, PageOf;
    PreparedFine(b, input);
    InsertionRunsPlan(input, pl, s, pads);
    WorldGivesPlan(b, input, pl, l);
    var base := Base(s, pl);
    var Q, t := NewImage(pl, base), InsertAll(s, FilesOf(pl), pads).space;
    assert Q == Image(t.bytes, NewNames(pl));
    if Run(Q, cpu, p, schedule).Moved? && tid < |p.threads| {
      var a := ReachedRelated(pl, l, base, cpu, p, schedule, tid);
      var pc := Run(Q, cpu, p, schedule).proc.threads[tid].pc;
      MixedExecutable(input, pl, l, s, pads, base, a, pc);
      forall k | pc <= k < pc + Decode(t.bytes, pc).size
        ensures k / 4096 in t.perm && t.perm[k / 4096].exec
      {
        PageIs(k);
      }
    }
  }

  lemma PageIs(k: int)
    ensures PageOf(k) == k / 4096
  {
  }

  /** A thread of the resumed process always stands where some old instruction
      corresponds. */
  lemma ReachedRelated<D>(pl: Plan, l: Link, base: Memory, cpu: Cpu<D>, p: Process<D>, schedule: seq<nat>, tid: nat) returns (a: int)
    requires PlanFine(pl, l) && Extends(base, pl.mem)
    requires Unwound(pl, p) && LastFunctionQuiet(pl) && CallsEntries(OldImage(pl), Entries(pl), cpu, p)
    requires Run(NewImage(pl, base), cpu, p, schedule).Moved? && tid < |p.threads|
    ensures tid < |Run(NewImage(pl, base), cpu, p, schedule).proc.threads|
    ensures Mixed(pl, l, a, Run(NewImage(pl, base), cpu, p, schedule).proc.threads[tid].pc)
  {
    hide Unwound, LastFunctionQuiet, CallsEntries, Entries, After, ProgramFine, RecordsFine, PatchesFine, SlotsFine, BoltFine, EntriesFresh;
    hide Bisimulates, SharesEntries, Mixed, Extends;
    var P, Q, m := OldImage(pl), NewImage(pl, base), MixedLink(pl, l);
    ReplacementBisimulates(pl, l, base);
    EntriesShared(pl, l, base);
    FramesMixed(pl, l, p);
    FlipBisimulates(P, Q, m);
    FlipRelated(m, p, p);
    SharesFlipped(P, Q, m, Entries(pl));
    var schedule' := RunMatched(Q, P, Flip(m), Entries(pl), cpu, p, p, schedule);
    var q, o := Run(Q, cpu, p, schedule).proc, Run(P, cpu, p, schedule').proc;
    SameThreads(Q, cpu, p, schedule);
    assert RelatedThreads(Flip(m), q.threads[tid], o.threads[tid]);
    a := o.threads[tid].pc;
  }

  lemma SharesFlipped(P: Image, Q: Image, m: Link, entries: set<int>)
    requires SharesEntries(P, Q, m, entries)
    ensures SharesEntries(Q, P, Flip(m), entries)
  {
  }

  lemma {:induction false} SameThreads<D>(img: Image, cpu: Cpu<D>, p: Process<D>, schedule: seq<nat>)
    requires Run(img, cpu, p, schedule).Moved?
    ensures |Run(img, cpu, p, schedule).proc.threads| == |p.threads|
    decreases |schedule|
  {
    hide Fetch, NameOf;
    if schedule != [] {
      SameThreads(img, cpu, Step(img, cpu, p, schedule[0]).proc, schedule[1..]);
    }
  }

  // A call in the listing is a call in the tables

  /** Each printed direct call with an ordinary symbol and target, followed by
      another line, has its entry in the table, and its index. */
  lemma PrintedCallsKnown(b: Binary, input: Inputs, f: CallSites.Func, k: nat, addr: nat, code: seq<Byte>, mnemonic: string,
                          target: nat, symbol: string)
    requires Prepared(b, input) && f in ScannedFuncs(b.symbols) && k + 1 < |b.disasm(f)|
    requires |code| == 5 && addr + 5 < TWO_63 && (mnemonic == "call" || mnemonic == "callq")
    requires |symbol| == 5 || (|symbol| > 5 && symbol[|symbol| - 5..] != "@plt>")
    requires !(16 <= target < 256)
    requires b.disasm(f)[k] == PrintedCall(addr, code, mnemonic, target, symbol)
    requires b.disasm(f)[k + 1] != [] && b.disasm(f)[k + 1][0] == Hex.Printed(addr + 5) + ":"
    ensures addr in input.sites && input.sites[addr].target in input.index && addr in input.index[input.sites[addr].target]
  {
    hide LineMeaning, PrintedCall, SitesOfFuncs, ScannedFuncs, Tabulates, Inverts, NonEmptyWords, FirstToDeclare, SymbolsIndexed;
    var lines := b.disasm(f);
    assert GoodListing(lines);
    assert NonEmptyWords(lines[k]) && NonEmptyWords(lines[k + 1]);
    ExtractedExactly(ScannedFuncs(b.symbols), b.disasm, input.sites, input.index);
    DecodedCall(addr, code, mnemonic, target, symbol, lines[k + 1], f.start);
    assert LineMeaning(lines[k], lines[k + 1], f.start).Found?;
  }
}
