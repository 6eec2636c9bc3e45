/** A replacement that meets every assumption, from what the tools print to the
    paused threads and the pages they run on: the caller of a moved function is on
    the stack and gets patched, the moved body has another layout, an unmoved
    function off the stack is overwritten in place, and calls go through a v-table
    and through a function pointer. The insertion goes through. */
module Example {
  import opened Words
  import opened Hex
  import opened Code
  import opened Records
  import opened Rel32
  import opened CallSites
  import opened CallStack
  import opened Patching
  import opened Machine
  import opened Replacement
  import opened Insertion
  import opened Injection
  import opened Tracer
  import Elf
  import Disassembly
  import Boundaries

  /** caller: call worker; call [cell]; jump back to its start
      worker: point to worker; call the pointer; ret
      last: op; jump; ret -- and a cell that holds worker */
  const CALLER: seq<Byte> := [0xE8, 27, 0, 0, 0, 0xFF, 0x14, 0x25, 0, 0x50, 0, 0, 0xE9, 0xEF, 0xFF, 0xFF, 0xFF]
  const CALLEE: seq<Byte> := [0x48, 0xC7, 0xC0, 0x20, 0x10, 0, 0, 0xFF, 0xD0, 0xC3]
  const QUIET: seq<Byte> := [0x90, 0xE9, 0, 0, 0, 0, 0xC3]
  const CELL: seq<Byte> := [0x20, 0x10, 0, 0, 0, 0, 0, 0]

  function Present(): Memory {
    Overlay(Record(4096, CALLER)) + Overlay(Record(4128, CALLEE)) + Overlay(Record(4144, QUIET)) + Overlay(Record(20480, CELL))
  }

  const PAGES: set<int> := {1, 5, 6}

  /** Three whole pages of the process. */
  function Old(): Memory { Zeros(PAGES) + Present() }

  function TheSpace(): Space { Space(Old(), map[1 := RX, 5 := RX, 6 := RX]) }

  /** The moved worker starts with a jump to its next instruction and points to
      its new place. The last function has lost its jump, and other operations
      fill the space. */
  const BODY: seq<Byte> := [0xE9, 0, 0, 0, 0, 0x48, 0xC7, 0xC0, 0, 0x20, 0, 0, 0xFF, 0xD0, 0xC3]
  const LAST: seq<Byte> := [0x90, 0xC3, 0x90, 0x90, 0x90, 0x90, 0x90]
  const TABLE: seq<Byte> := [0, 0x20, 0, 0, 0, 0, 0, 0]

  function New(): Memory {
    Overlay(Record(4144, LAST)) + Overlay(Record(8192, BODY)) + Overlay(Record(20480, TABLE))
  }

  const FUNCS: Funcs := map[4096 := FuncInfo(4096, 17, 0, 0), 4128 := FuncInfo(4128, 10, 0, 0), 4144 := FuncInfo(4144, 7, 0, 0)]

  const BOLTED: Funcs := map[4128 := FuncInfo(4128, 10, 8192, 15)]

  const SITE: CallSite := CallSite([0xE8, 27, 0, 0, 0], 4096, 4101, 4096, 4128)

  const SITES: Table := map[4096 := SITE]

  const CODE: set<int> := {4096, 4101, 4108, 4128, 4135, 4137, 4144, 4145, 4150}

  predicate IsCode(a: int) {
    a == 4096 || a == 4101 || a == 4108 || a == 4128 || a == 4135 || a == 4137 || a == 4144 || a == 4145 || a == 4150
  }

  /** The replacement, given the stack addresses. */
  function PlanAt(ips: seq<int>): Plan {
    Plan(Old(), FUNCS, BOLTED, SITES, ips, New(),
         [Record(8192, BODY)], [Record(4096, [0xE8] + Rel32Bytes(4091))], [Record(20480, TABLE)], [Record(4144, LAST)], CODE)
  }

  const IPS: seq<int> := [4135, 4101, 4108]

  function ThePlan(): Plan { PlanAt(IPS) }

  predicate Pairs(a: int, b: int) {
    || (a == 4128 && (b == 8192 || b == 8197)) || (a == 4135 && b == 8204) || (a == 4137 && b == 8206)
    || (a == 4144 && b == 4144) || ((a == 4145 || a == 4150) && b == 4145)
  }

  function TheLink(): Link { Link((a, b) => Pairs(a, b), (a, b) => if b == 8192 || a == 4145 then 1 else 0) }

  /** One thread inside the worker, called from the caller; another one about to
      jump back in the caller. */
  function TheProcess(): Process<int> { Process(0, [Thread(4135, [4101]), Thread(4108, [])]) }

  /** The one function pointer of the program names the worker. */
  ghost predicate PicksWorker<D(!new)>(cpu: Cpu<D>) { forall tid: nat, d: D :: cpu.pick(tid, d) == 4128 }

  // Memory

  lemma OldHolds()
    ensures forall k :: k in Present() ==> k in Old() && Old()[k] == Present()[k]
    ensures forall k :: k in Old() <==> PageOf(k) in PAGES
  {
    PresentPages();
    hide Present;
  }

  lemma PresentPages()
    ensures forall k :: k in Present() ==> PageOf(k) == 1 || PageOf(k) == 5
  {
    forall k | k in Present()
      ensures PageOf(k) == 1 || PageOf(k) == 5
    {
      assert 4096 <= k < 8192 || 20480 <= k < 24576;
      if k < 8192 { PageSpan(1, k); } else { PageSpan(5, k); }
    }
  }

  /** The bytes `bs` lie in memory at `a`. */
  predicate Lies(m: Memory, a: int, bs: seq<Byte>) {
    forall k :: a <= k < a + |bs| ==> k in m && m[k] == bs[k - a]
  }

  lemma Laid(m: Memory, a: int, bs: seq<Byte>)
    ensures Lies(m + Overlay(Record(a, bs)), a, bs)
  {
  }

  lemma LiesStill(m: Memory, a: int, bs: seq<Byte>, r: Record)
    requires Lies(m, a, bs) && (a + |bs| <= r.addr || r.addr + |r.payload| <= a)
    ensures Lies(m + Overlay(r), a, bs)
  {
  }

  lemma LiesIn(m: Memory, n: Memory, a: int, bs: seq<Byte>)
    requires Lies(m, a, bs) && forall k :: k in m ==> k in n && n[k] == m[k]
    ensures Lies(n, a, bs)
  {
  }

  lemma LiesTail(m: Memory, a: int, bs: seq<Byte>, i: nat)
    requires Lies(m, a, bs) && i <= |bs|
    ensures Lies(m, a + i, bs[i..])
  {
  }

  lemma FourLie(p: Record, q: Record, r: Record, t: Record)
    requires p.addr + |p.payload| <= q.addr && q.addr + |q.payload| <= r.addr && r.addr + |r.payload| <= t.addr
    ensures var m := Overlay(p) + Overlay(q) + Overlay(r) + Overlay(t);
      && Lies(m, p.addr, p.payload) && Lies(m, q.addr, q.payload) && Lies(m, r.addr, r.payload) && Lies(m, t.addr, t.payload)
  {
    hide Overlay;
    var none: Memory := map[];
    assert none + Overlay(p) == Overlay(p);
    Laid(none, p.addr, p.payload);
    var m1, m2 := Overlay(p) + Overlay(q), Overlay(p) + Overlay(q) + Overlay(r);
    Laid(Overlay(p), q.addr, q.payload);
    LiesStill(Overlay(p), p.addr, p.payload, q);
    Laid(m1, r.addr, r.payload);
    LiesStill(m1, p.addr, p.payload, r);
    LiesStill(m1, q.addr, q.payload, r);
    Laid(m2, t.addr, t.payload);
    LiesStill(m2, p.addr, p.payload, t);
    LiesStill(m2, q.addr, q.payload, t);
    LiesStill(m2, r.addr, r.payload, t);
  }

  lemma OldLies()
    ensures Lies(Old(), 4096, CALLER) && Lies(Old(), 4128, CALLEE) && Lies(Old(), 4144, QUIET) && Lies(Old(), 20480, CELL)
  {
    OldHolds();
    hide Old, Lies, Overlay;
    FourLie(Record(4096, CALLER), Record(4128, CALLEE), Record(4144, QUIET), Record(20480, CELL));
    LiesIn(Present(), Old(), 4096, CALLER);
    LiesIn(Present(), Old(), 4128, CALLEE);
    LiesIn(Present(), Old(), 4144, QUIET);
    LiesIn(Present(), Old(), 20480, CELL);
  }

  lemma NewLies()
    ensures Lies(New(), 4144, LAST) && Lies(New(), 8192, BODY) && Lies(New(), 20480, TABLE)
  {
    hide Lies, Overlay;
    var none := Record(4096, []);
    FourLie(none, Record(4144, LAST), Record(8192, BODY), Record(20480, TABLE));
    assert Overlay(none) == map[] by { NothingLaid(none); }
    var m: Memory := map[];
    assert m + Overlay(Record(4144, LAST)) == Overlay(Record(4144, LAST));
  }

  lemma NothingLaid(r: Record)
    requires r.payload == []
    ensures Overlay(r) == map[]
  {
  }

  lemma SpaceIsMapped()
    ensures Mapped(TheSpace()) && TheSpace().perm.Keys == PAGES
  {
    hide Present, Old;
    OldHolds();
  }

  // The code

  lemma CallDecodes()
    ensures Decode(Old(), 4096) == Inst(Call(4128), 5)
  {
    OldLies();
    hide Displacement, Old;
    DisplacementIs(Old(), 4097, 27, 0, 0, 0);
    SmallU64(4128);
  }

  lemma SlotDecodes()
    ensures Decode(Old(), 4101) == Inst(CallSlot(20480), 7)
  {
    OldLies();
    hide Displacement, Old;
    DisplacementIs(Old(), 4104, 0, 0x50, 0, 0);
    SmallU64(20480);
  }

  lemma JumpDecodes()
    ensures Decode(Old(), 4108) == Inst(Jump(4096), 5)
  {
    OldLies();
    hide Displacement, Old;
    DisplacementIs(Old(), 4109, 0xEF, 0xFF, 0xFF, 0xFF);
    SmallU64(4096);
  }

  lemma WorkerDecodes()
    ensures Decode(Old(), 4128) == Inst(Point(4128), 7)
    ensures Decode(Old(), 4135) == Inst(CallData, 2) && Decode(Old(), 4137) == Inst(Ret, 1)
  {
    OldLies();
    hide Displacement, Old;
    DisplacementIs(Old(), 4131, 0x20, 0x10, 0, 0);
    SmallU64(4128);
  }

  lemma LastDecodes()
    ensures Decode(Old(), 4144) == Inst(Op(0x90), 1)
    ensures Decode(Old(), 4145) == Inst(Jump(4150), 5) && Decode(Old(), 4150) == Inst(Ret, 1)
  {
    OldLies();
    hide Displacement, Old;
    DisplacementIs(Old(), 4146, 0, 0, 0, 0);
    SmallU64(4150);
  }

  lemma NewJumpDecodes()
    ensures Decode(New(), 8192) == Inst(Jump(8197), 5)
  {
    NewLies();
    hide Displacement, New;
    DisplacementIs(New(), 8193, 0, 0, 0, 0);
    SmallU64(8197);
  }

  lemma NewWorkerDecodes()
    ensures Decode(New(), 8197) == Inst(Point(8192), 7)
    ensures Decode(New(), 8204) == Inst(CallData, 2) && Decode(New(), 8206) == Inst(Ret, 1)
  {
    NewLies();
    hide Displacement, New;
    DisplacementIs(New(), 8200, 0, 0x20, 0, 0);
    SmallU64(8192);
  }

  lemma NewLastDecodes()
    ensures Decode(New(), 4144) == Inst(Op(0x90), 1) && Decode(New(), 4145) == Inst(Ret, 1)
  {
    NewLies();
    hide New;
  }

  /** A cell whose upper six bytes are zero. */
  lemma SmallCell(bs: seq<Byte>)
    requires |bs| == 8 && forall i :: 2 <= i < 8 ==> bs[i] == 0
    ensures LE(bs) == (bs[0] as int) + 256 * (bs[1] as int)
  {
    var tail := bs[1..];
    ZeroBytes(tail[1..]);
    assert LE(tail) == tail[0] + 256 * LE(tail[1..]);
  }

  lemma {:induction false} ZeroBytes(bs: seq<Byte>)
    requires forall i :: 0 <= i < |bs| ==> bs[i] == 0
    ensures LE(bs) == 0
  {
    if bs != [] {
      ZeroBytes(bs[1..]);
    }
  }

  lemma TheCell()
    ensures Has(Old(), 20480, 8) && LE(Bytes(Old(), 20480, 8)) == 4128
    ensures Has(New(), 20480, 8) && LE(Bytes(New(), 20480, 8)) == 8192
  {
    OldLies();
    NewLies();
    hide Old, New, LE;
    assert Bytes(Old(), 20480, 8) == CELL && Bytes(New(), 20480, 8) == TABLE;
    SmallCell(CELL);
    SmallCell(TABLE);
  }

  lemma TheEntries(ips: seq<int>)
    ensures IsEntry(PlanAt(ips), 4128) && Separate(FUNCS)
  {
    hide Old, New, Rel32Bytes;
  }

  lemma CallIsFine(ips: seq<int>)
    ensures InstructionFine(PlanAt(ips), 4096)
  {
    hide Old, New, Decode, LE, IsEntry, Rel32Bytes;
    CallDecodes();
    TheEntries(ips);
    hide Separate;
  }

  lemma SlotCallIsFine(ips: seq<int>)
    ensures InstructionFine(PlanAt(ips), 4101)
  {
    hide Old, New, Decode, LE, IsEntry, Rel32Bytes;
    SlotDecodes();
    TheCell();
    TheEntries(ips);
    hide Separate;
  }

  lemma JumpIsFine(ips: seq<int>)
    ensures InstructionFine(PlanAt(ips), 4108)
  {
    hide Old, New, Decode, LE, IsEntry, Rel32Bytes, Overwritten;
    JumpDecodes();
  }

  lemma WorkerIsFine(ips: seq<int>, a: int)
    requires a == 4128 || a == 4135 || a == 4137
    ensures InstructionFine(PlanAt(ips), a)
  {
    hide Old, New, Decode, LE, IsEntry, Rel32Bytes;
    WorkerDecodes();
    TheEntries(ips);
    hide Separate;
  }

  lemma LastIsFine(ips: seq<int>, a: int)
    requires a == 4144 || a == 4145 || a == 4150
    ensures InstructionFine(PlanAt(ips), a)
  {
    hide Old, New, Decode, LE, IsEntry, Rel32Bytes, Overwritten;
    LastDecodes();
  }

  lemma ProgramIsFine(ips: seq<int>)
    ensures ProgramFine(PlanAt(ips))
  {
    hide Old, New, InstructionFine, Rel32Bytes;
    TheEntries(ips);
    forall a | a in CODE
      ensures InstructionFine(PlanAt(ips), a)
    {
      if a == 4096 {
        CallIsFine(ips);
      } else if a == 4101 {
        SlotCallIsFine(ips);
      } else if a == 4108 {
        JumpIsFine(ips);
      } else if a < 4144 {
        WorkerIsFine(ips, a);
      } else {
        LastIsFine(ips, a);
      }
    }
  }

  lemma WorkerCorresponds(ips: seq<int>, a: int, b: int)
    requires a in CODE && Pairs(a, b) && Covers(Record(8192, BODY), b)
    ensures Corresponds(PlanAt(ips), TheLink(), Record(8192, BODY), a, b)
  {
    hide Old, New, Decode, Rel32Bytes, IsEntry;
    var pl, l, r := PlanAt(ips), TheLink(), Record(8192, BODY);
    WorkerDecodes();
    NewJumpDecodes();
    NewWorkerDecodes();
    if b == 8192 {
      assert Continues(pl, l, r, 4128, 8197);
    } else if b == 8197 {
      assert Continues(pl, l, r, 4135, 8204);
    } else if b == 8204 {
      assert Continues(pl, l, r, 4137, 8206);
    }
  }

  lemma LastCorresponds(ips: seq<int>, a: int, b: int)
    requires a in CODE && Pairs(a, b) && Covers(Record(4144, LAST), b)
    ensures Corresponds(PlanAt(ips), TheLink(), Record(4144, LAST), a, b)
  {
    hide Old, New, Decode, Rel32Bytes, IsEntry;
    var pl, l, r := PlanAt(ips), TheLink(), Record(4144, LAST);
    LastDecodes();
    NewLastDecodes();
    if a == 4144 {
      assert Continues(pl, l, r, 4145, 4145);
    } else if a == 4145 {
      assert Continues(pl, l, r, 4150, 4145);
    }
  }

  lemma BoltIsFine(ips: seq<int>)
    ensures BoltFine(PlanAt(ips), TheLink())
  {
    hide Old, New, Corresponds, Rel32Bytes;
    var pl, l := PlanAt(ips), TheLink();
    assert pl.boltedRecs[0] in pl.boltedRecs && Covers(pl.boltedRecs[0], 8192);
    forall r, a, b | r in Bodies(pl) && a in pl.code && l.rel(a, b) && Covers(r, b)
      ensures Corresponds(pl, l, r, a, b)
    {
      if r == Record(8192, BODY) {
        WorkerCorresponds(ips, a, b);
      } else {
        LastCorresponds(ips, a, b);
      }
    }
  }

  // The stacks

  /** The caller and the worker have frames, as far as the lookup can tell. */
  ghost predicate TwoFrames(ips: seq<int>) { OnStack(ips, FUNCS).Keys == {4096, 4128} }

  lemma OwnersAre()
    ensures forall k :: Owner(FUNCS, 4135, k) <==> k == 4128
    ensures forall k :: Owner(FUNCS, 4101, k) || Owner(FUNCS, 4108, k) <==> k == 4096
    ensures forall k :: !Owner(FUNCS, 4150, k)
  {
    assert 4144 in FUNCS && 4128 in FUNCS;
    assert Owner(FUNCS, 4135, 4128) && Owner(FUNCS, 4101, 4096) && Owner(FUNCS, 4108, 4096);
  }

  lemma StackIs(ips: seq<int>)
    requires IPS <= ips && forall i :: 3 <= i < |ips| ==> ips[i] == 4150
    ensures TwoFrames(ips)
  {
    hide Owner;
    OwnersAre();
    assert IPS == [4135, 4101, 4108] && ips[0] == IPS[0] && ips[1] == IPS[1] && ips[2] == IPS[2];
    assert forall i :: 0 <= i < |ips| ==> ips[i] == 4135 || ips[i] == 4101 || ips[i] == 4108 || ips[i] == 4150;
    assert forall k :: k in OnStack(ips, FUNCS) <==> k in {4096, 4128};
  }

  lemma LastIsQuiet()
    ensures LastFunctionQuiet(ThePlan())
  {
    hide Old, New, Rel32Bytes;
    var m := FUNCS;
    assert IPS == [4135, 4101, 4108];
    assert forall f, i :: 0 <= i < |IPS| && StrictlyInside(m, f, IPS[i]) ==> f == 4128 || f == 4096;
    assert 4144 in m;
  }

  lemma ThreadsUnwound()
    ensures Unwound(ThePlan(), TheProcess()) && Unwound(ThePlan(), TheJumper())
  {
    hide Old, New, Rel32Bytes;
    assert IPS[0] == 4135 && IPS[1] == 4101 && IPS[2] == 4108;
  }

  lemma WorkerPicked<D(!new)>(ips: seq<int>, cpu: Cpu<D>, p: Process<D>)
    requires PicksWorker(cpu)
    ensures CallsEntries(OldImage(PlanAt(ips)), Entries(PlanAt(ips)), cpu, p)
  {
    hide Old, New, Rel32Bytes, IsEntry, Run, Fetch;
    TheEntries(ips);
    var pl := PlanAt(ips);
    assert 4128 in CODE && 4128 in Entries(pl);
    forall schedule | Run(OldImage(pl), cpu, p, schedule).Moved?
      ensures PicksEntries(OldImage(pl), Entries(pl), cpu, Run(OldImage(pl), cpu, p, schedule).proc)
    {
      var q := Run(OldImage(pl), cpu, p, schedule).proc;
      assert forall tid: nat :: cpu.pick(tid, q.data) == 4128;
    }
  }

  // The binary BOLT wrote

  /** Three sections that are loaded, and two that are not, both at address 0. */
  const SECTIONS: seq<Elf.Section> := [
    Elf.Section(8192, 0, 15, true), Elf.Section(4144, 15, 7, true), Elf.Section(20480, 22, 8, true),
    Elf.Section(0, 0, 5, false), Elf.Section(0, 3, 6, false)]

  const WORKER: Elf.Symbol := Elf.Symbol(8192, 15, true, "worker", Elf.Index(0))
  const LASTONE: Elf.Symbol := Elf.Symbol(4144, 7, true, "last", Elf.Index(1))
  const VTABLE: Elf.Symbol := Elf.Symbol(20480, 8, false, "_ZTV1A", Elf.Index(2))
  const IMPORTED: Elf.Symbol := Elf.Symbol(0, 0, true, "puts", Elf.Undefined)

  const ELF: Elf.ElfFile := Elf.ElfFile(BODY + LAST + TABLE, SECTIONS, [WORKER, LASTONE, VTABLE, IMPORTED])

  const SYMBOLS: map<int, Elf.Symbol> := map[8192 := WORKER, 4144 := LASTONE, 0 := IMPORTED]

  const INPUT: Inputs := Inputs(FUNCS, BOLTED, SITES, map[4128 := [4096]], ELF, SYMBOLS)

  lemma WorkerSliced()
    ensures Elf.FunctionBytes(ELF, WORKER) == Elf.Contents(BODY)
  {
    SmallU64(0);
    SmallU64(15);
    var bytes := ELF.bytes;
    assert |bytes| == 30 && bytes[0..15] == BODY;
    assert Elf.FileOffset(SECTIONS[0], 8192) == 0;
  }

  lemma LastSliced()
    ensures Elf.FunctionBytes(ELF, LASTONE) == Elf.Contents(LAST)
  {
    SmallU64(15);
    SmallU64(22);
    var bytes := ELF.bytes;
    assert |bytes| == 30 && bytes[15..22] == LAST;
    assert Elf.FileOffset(SECTIONS[1], 4144) == 15;
  }

  lemma FunctionsSliced()
    ensures Elf.FunctionBytes(ELF, WORKER) == Elf.Contents(BODY)
    ensures Elf.FunctionBytes(ELF, LASTONE) == Elf.Contents(LAST)
    ensures Elf.FunctionBytes(ELF, IMPORTED) == Elf.OutOfBounds
  {
    WorkerSliced();
    LastSliced();
  }

  lemma VtableSliced()
    ensures Elf.ExtractVtable(ELF, VTABLE) == Elf.Table(Record(20480, TABLE))
  {
    SmallU64(22);
    SmallU64(30);
    var bytes := ELF.bytes;
    assert |bytes| == 30 && bytes[22..30] == TABLE;
    assert "_ZTV1A"[..4] == "_ZTV";
    assert Elf.FileOffset(SECTIONS[2], 20480) == 22;
  }

  lemma TableSliced()
    ensures Elf.ExtractVtable(ELF, VTABLE) == Elf.Table(Record(20480, TABLE))
    ensures forall s :: s in ELF.symbols && s != VTABLE ==> Elf.ExtractVtable(ELF, s) == Elf.NotAVtable
  {
    VtableSliced();
    forall s | s in ELF.symbols && s != VTABLE
      ensures Elf.ExtractVtable(ELF, s) == Elf.NotAVtable
    {
      assert s == WORKER || s == LASTONE || s == IMPORTED;
      assert "worker"[..4][0] == 'w' && "last"[..4][0] == 'l' && "puts"[..4][0] == 'p';
    }
  }

  lemma ImageIsLoaded()
    ensures Elf.Loaded(ELF, New())
  {
    NewLies();
    hide New;
    forall n: nat, a | Elf.InSection(ELF, n, a)
      ensures 0 <= SECTIONS[n].offset + (a - SECTIONS[n].address) < |ELF.bytes|
      ensures a in New() && New()[a] == ELF.bytes[SECTIONS[n].offset + (a - SECTIONS[n].address)]
    {
      assert |ELF.bytes| == 30;
      if n == 0 {
        assert New()[a] == BODY[a - 8192];
      } else if n == 1 {
        assert New()[a] == LAST[a - 4144];
      } else {
        assert n == 2 && New()[a] == TABLE[a - 20480];
      }
    }
  }

  lemma BinaryIsFine()
    ensures BinaryFine(INPUT, New())
  {
    hide Old, New, Elf.Loaded, Elf.ExtractVtable;
    ImageIsLoaded();
    TableSliced();
    assert Elf.WithinSection(ELF, WORKER) && Elf.WithinSection(ELF, LASTONE) && Elf.WithinSection(ELF, VTABLE);
    assert !IsWritten(INPUT, 0);
  }

  // The records the tracer writes

  lemma WorkerWritten()
    ensures BoltedRecordsOf(INPUT, [Record(8192, BODY)])
  {
    hide Elf.FunctionBytes;
    FunctionsSliced();
    forall r
      ensures r in [Record(8192, BODY)] <==> IsMovedEntry(INPUT, r.addr) && FunctionRecord(INPUT, r)
    {
      assert IsMovedEntry(INPUT, 8192) by { assert BOLTED[4128].movedAddr == 8192; }
      assert IsMovedEntry(INPUT, r.addr) ==> r.addr == 8192;
    }
  }

  lemma LastWritten(ips: seq<int>)
    requires TwoFrames(ips)
    ensures UnmovedRecordsOf(INPUT, OnStack(ips, FUNCS), [Record(4144, LAST)])
  {
    hide Elf.FunctionBytes, OnStack;
    FunctionsSliced();
    var onStack := OnStack(ips, FUNCS);
    assert forall a :: a in onStack <==> a in {4096, 4128};
    forall r
      ensures r in [Record(4144, LAST)] <==>
        r.addr in FUNCS && r.addr !in BOLTED && r.addr !in onStack && FunctionRecord(INPUT, r)
    {
      assert r.addr in FUNCS <==> r.addr == 4096 || r.addr == 4128 || r.addr == 4144;
    }
  }

  lemma TableWritten()
    ensures VtableRecordsOf(INPUT, [Record(20480, TABLE)])
  {
    hide Elf.ExtractVtable;
    TableSliced();
    var syms := ELF.symbols;
    assert syms[0] == WORKER && syms[1] == LASTONE && syms[2] == VTABLE && syms[3] == IMPORTED;
    assert forall j :: 0 <= j < 2 ==> Elf.ExtractVtable(ELF, syms[j]) == Elf.NotAVtable;
    assert Elf.FirstTable(ELF, 2, Record(20480, TABLE));
    forall r, k | Elf.FirstTable(ELF, k, r)
      ensures r == Record(20480, TABLE)
    {
      assert k == 0 || k == 1 || k == 2 || k == 3;
    }
  }

  lemma PatchWritten(ips: seq<int>)
    requires TwoFrames(ips)
    ensures PatchRecordsOf(INPUT, OnStack(ips, FUNCS), [Record(4096, [0xE8] + Rel32Bytes(4091))])
    ensures NeedsPatch(SITES, BOLTED, OnStack(ips, FUNCS), 4096)
  {
    hide Rel32Bytes, OnStack;
    assert 4096 in OnStack(ips, FUNCS).Keys;
    assert Distance(SITES, BOLTED, 4096) == 4091;
  }

  lemma PlanIsWritten(ips: seq<int>)
    requires TwoFrames(ips)
    ensures PlanWritten(INPUT, PlanAt(ips))
  {
    hide Old, New, BoltedRecordsOf, PatchRecordsOf, VtableRecordsOf, UnmovedRecordsOf, OnStack, Rel32Bytes, TwoFrames;
    WorkerWritten();
    PatchWritten(ips);
    TableWritten();
    LastWritten(ips);
  }

  // What the tools print

  function SymbolLine(start: nat, size: nat): Line { [Printed(start), Printed(size), "T", "f"] }

  function CallLine(): Line { PrintedCall(4096, SITE.code, "call", 4128, "<worker>") }

  /** The caller's first two instructions, and nothing to see of the others. */
  function Listing(f: Func): seq<Line> {
    if f.start == 4096 then [CallLine(), [Printed(4101) + ":"]] else [[Printed(4128) + ":"]]
  }

  function TheBinary(): Binary {
    Binary([SymbolLine(4096, 17), SymbolLine(4128, 10), SymbolLine(4144, 7)], f => Listing(f), BOLTED, ELF)
  }

  lemma SymbolLineIs(start: nat, size: nat)
    requires start < TWO_63 && size < TWO_63
    ensures IsScannedSymbol(SymbolLine(start, size)) && SymbolOf(SymbolLine(start, size)) == Func(start, size)
    ensures IsTextSymbol(SymbolLine(start, size)) && InfoOf(SymbolLine(start, size)) == FuncInfo(start, size, 0, 0)
    ensures forall a :: Declares(SymbolLine(start, size), a) <==> a == start
  {
    ValueOfPrinted(start);
    ValueOfPrinted(size);
    SmallU64(start);
    SmallU64(size);
  }

  lemma SymbolLinesAre()
    ensures ScannedFuncs(TheBinary().symbols) == [Func(4096, 17), Func(4128, 10), Func(4144, 7)]
  {
    hide SymbolLine, SymbolOf;
    SymbolLineIs(4096, 17);
    SymbolLineIs(4128, 10);
    SymbolLineIs(4144, 7);
    var lines := TheBinary().symbols;
    assert lines[..2][..1] == [lines[0]] && lines[..2][1] == lines[1];
    assert lines[..2][..1][..0] == [];
    assert ScannedFuncs(lines[..2][..1]) == [Func(4096, 17)];
  }

  lemma FuncsAreDeclared()
    ensures forall a :: a in FUNCS ==>
      exists k :: FirstToDeclare(TheBinary().symbols, k, a) && FUNCS[a] == InfoOf(TheBinary().symbols[k])
    ensures forall a :: (exists k :: FirstToDeclare(TheBinary().symbols, k, a)) ==> a in FUNCS
  {
    hide SymbolLine, Declares, InfoOf;
    SymbolLineIs(4096, 17);
    SymbolLineIs(4128, 10);
    SymbolLineIs(4144, 7);
    var lines := TheBinary().symbols;
    assert lines[0] == SymbolLine(4096, 17) && lines[1] == SymbolLine(4128, 10) && lines[2] == SymbolLine(4144, 7);
    assert FirstToDeclare(lines, 0, 4096) && FirstToDeclare(lines, 1, 4128) && FirstToDeclare(lines, 2, 4144);
    forall a, k | FirstToDeclare(lines, k, a)
      ensures a in FUNCS
    {
      assert k == 0 || k == 1 || k == 2;
    }
  }

  lemma CallLineIs()
    ensures NonEmptyWords(CallLine()) && NonEmptyWords([Printed(4101) + ":"])
    ensures LineMeaning(CallLine(), [Printed(4101) + ":"], 4096) == Found(SITE)
  {
    hide LineMeaning, PrintedCall, Printed;
    var next := [Printed(4101) + ":"];
    DecodedCall(4096, SITE.code, "call", 4128, "<worker>", next, 4096);
    LE4(SITE.code[1..]);
    assert U32(4128) == 4128;
  }

  lemma ListingsAreGood()
    ensures Listed([Func(4096, 17), Func(4128, 10), Func(4144, 7)], TheBinary().disasm)
    ensures GoodListing(Listing(Func(4096, 17)))
  {
    hide CallLine, Printed;
    CallLineIs();
  }

  lemma CallerSites()
    ensures Wordy(Listing(Func(4096, 17))) && SitesOfLines(4096, Listing(Func(4096, 17))) == Collected([SITE])
  {
    hide LineMeaning, CallLine, Printed, NonEmptyWords;
    CallLineIs();
    var lines := Listing(Func(4096, 17));
    assert lines[0] == CallLine() && lines[1] == [Printed(4101) + ":"];
    assert SitesOfLines(4096, lines[1..]) == Collected([]);
  }

  lemma SitesAre()
    ensures Listed(ScannedFuncs(TheBinary().symbols), TheBinary().disasm)
    ensures ListedSites(TheBinary()) == Collected([SITE])
  {
    hide ScannedFuncs, SitesOfLines, Listed, Listing;
    SymbolLinesAre();
    ListingsAreGood();
    CallerSites();
    var f, g, h := Func(4096, 17), Func(4128, 10), Func(4144, 7);
    var disasm := TheBinary().disasm;
    QuietListing(g);
    QuietListing(h);
    assert [f, g, h][1..] == [g, h] && [g, h][1..] == [h] && [h][1..] == [];
    RestListed([f, g, h], disasm);
    RestListed([g, h], disasm);
    RestListed([h], disasm);
    assert SitesOfFuncs([h], disasm) == Collected([]);
    assert SitesOfFuncs([g, h], disasm) == Collected([]);
    assert SitesOfFuncs([f, g, h], disasm) == Collected([SITE]);
  }

  lemma RestListed(funcs: seq<Func>, disasm: CallSites.Disassembly)
    requires Listed(funcs, disasm) && funcs != []
    ensures Listed(funcs[1..], disasm)
  {
  }

  lemma QuietListing(f: Func)
    requires f.start != 4096
    ensures Wordy(Listing(f)) && SitesOfLines(f.start, Listing(f)) == Collected([])
  {
  }

  lemma IndexIsFine()
    ensures Inverts(INPUT.index, SITES) && SymbolsIndexed(INPUT)
  {
    var addrs := [4096];
    assert INPUT.index[4128] == addrs && addrs[0] == 4096;
    var syms := ELF.symbols;
    assert syms[0] == WORKER && syms[1] == LASTONE && syms[3] == IMPORTED;
  }

  lemma TablesArePrepared()
    ensures Prepared(TheBinary(), INPUT)
  {
    hide Old, New, ScannedFuncs, SitesOfFuncs, Listed, FirstToDeclare, InfoOf, Inverts, SymbolsIndexed, SymbolLine;
    SitesAre();
    FuncsAreDeclared();
    IndexIsFine();
    assert [SITE][0] == SITE;
  }

  lemma NumbersAreFine()
    ensures Listed(ScannedFuncs(TheBinary().symbols), TheBinary().disasm) && ListedSites(TheBinary()).Collected?
    ensures NumbersFine(TheBinary())
  {
    hide Old, New, ScannedFuncs, SitesOfFuncs, Listed, SymbolLine, Elf.ExtractVtable;
    SitesAre();
    TableSliced();
  }

  lemma ToolsAreFine()
    ensures Prepared(TheBinary(), INPUT) && NumbersFine(TheBinary())
  {
    hide Prepared, NumbersFine;
    TablesArePrepared();
    NumbersAreFine();
  }

  lemma CallIsPrinted()
    ensures Disassembly.FaithfulLine(Old(), Func(4096, 17), CallLine(), [Printed(4101) + ":"])
  {
    OldLies();
    hide Old, New, Decode, PrintedCall, Printed;
    CallDecodes();
    assert Bytes(Old(), 4096, 5) == SITE.code;
    assert CallLine() == PrintedCall(4096, Bytes(Old(), 4096, 5), "call", 4128, "<worker>");
    assert [Printed(4101) + ":"][0] == Printed(4096 + 5) + ":";
    assert Disassembly.PrintsCall(Old(), CallLine(), [Printed(4101) + ":"], 4096, "call", "<worker>");
  }

  lemma ListingIsFine(ips: seq<int>)
    ensures ListingFine(TheBinary(), PlanAt(ips))
  {
    hide Old, New, ScannedFuncs, Disassembly.FaithfulLine, CallLine, Rel32Bytes;
    SymbolLinesAre();
    CallIsPrinted();
    forall f | f in [Func(4096, 17), Func(4128, 10), Func(4144, 7)]
      ensures Disassembly.FaithfulListing(Old(), f, Listing(f))
    {
      assert f.start == 4096 ==> f == Func(4096, 17);
    }
  }

  // All together

  lemma DataApart(ips: seq<int>)
    ensures !CoversInstruction(PlanAt(ips), Record(20480, TABLE))
    ensures TablesFine(PlanAt(ips))
  {
    hide Old, New, Decode, Rel32Bytes, LE, TableFine;
    InstructionsBelow(ips);
    CellIsFine(ips);
  }

  lemma InstructionsBelow(ips: seq<int>)
    ensures forall a :: a in CODE ==>
      && Decode(Old(), a).Inst? && a + Decode(Old(), a).size <= 8192
      && (Decode(Old(), a).op.CallSlot? ==> Decode(Old(), a).op == CallSlot(20480))
  {
    hide Old, New, Decode;
    CallDecodes();
    SlotDecodes();
    JumpDecodes();
    WorkerDecodes();
    LastDecodes();
    assert forall a :: a in CODE ==> IsCode(a);
  }

  lemma CellIsFine(ips: seq<int>)
    ensures Has(Old(), 20480, 8) && TableFine(PlanAt(ips), 20480)
  {
    hide Old, New, Decode, Rel32Bytes, LE;
    InstructionsBelow(ips);
    TheCell();
    var pl := PlanAt(ips);
    assert Record(20480, TABLE) in pl.vtableRecs && CoversCell(Record(20480, TABLE), 20480);
    assert forall r :: r in pl.unmovedRecs ==> r == Record(4144, LAST);
  }

  lemma SitesNeeded(ips: seq<int>)
    ensures forall a :: NeedsPatch(SITES, BOLTED, OnStack(ips, FUNCS), a) ==> a in CODE && Encodable(Distance(SITES, BOLTED, a))
  {
    hide OnStack;
    assert Distance(SITES, BOLTED, 4096) == 4091;
  }

  lemma WorldIsFine(ips: seq<int>)
    ensures WorldFine(TheBinary(), INPUT, PlanAt(ips), TheLink())
  {
    hide Old, New, BinaryFine, ListingFine, ProgramFine, BoltFine, TablesFine, CoversInstruction, OnStack, Encodable, Rel32Bytes;
    BinaryIsFine();
    ListingIsFine(ips);
    ProgramIsFine(ips);
    BoltIsFine(ips);
    DataApart(ips);
    SitesNeeded(ips);
    assert forall r :: r in PlanAt(ips).vtableRecs ==> r == Record(20480, TABLE);
  }

  // The pages

  lemma PagesAre(ips: seq<int>)
    ensures AllPages(PlanAt(ips).boltedRecs) == {2, 3}
    ensures AllPages(PlanAt(ips).patchRecs + PlanAt(ips).vtableRecs + PlanAt(ips).unmovedRecs) == {1, 2, 5, 6}
  {
    hide Old, New, Rel32Bytes;
    var pl := PlanAt(ips);
    var patch, table, last := pl.patchRecs[0], Record(20480, TABLE), Record(4144, LAST);
    assert PagesOf(Record(8192, BODY)) == {2, 3};
    assert PagesOf(patch) == {1, 2} && PagesOf(table) == {5, 6} && PagesOf(last) == {1, 2};
    OnePage(Record(8192, BODY));
    OnePage(patch);
    OnePage(table);
    OnePage(last);
    AllPagesAppend(pl.patchRecs, pl.vtableRecs);
    AllPagesAppend(pl.patchRecs + pl.vtableRecs, pl.unmovedRecs);
  }

  lemma OnePage(r: Record)
    ensures AllPages([r]) == PagesOf(r)
  {
    assert [r][1..] == [];
    assert AllPages([]) == {};
  }

  /** The space the process has, and what the insertion makes of it. */
  lemma InsertionPossible(ips: seq<int>, pads: nat -> nat -> Byte)
    requires TwoFrames(ips) && InputsFine(INPUT)
    ensures Mapped(TheSpace()) && PlanAt(ips).mem == TheSpace().bytes
    ensures AllPages(PlanAt(ips).boltedRecs) !! TheSpace().perm.Keys
    ensures Boundaries.NewTextFresh(PlanAt(ips))
    ensures InsertAll(TheSpace(), FilesOf(PlanAt(ips)), pads).Running?
  {
    hide Old, New, InputsFine, PlanWritten, AllPages, InsertAll, Mapped, OnStack, Rel32Bytes, Boundaries.NewTextFresh, FilesOf, TwoFrames, NoneEmpty;
    SpaceIsMapped();
    PlanIsWritten(ips);
    PagesAre(ips);
    NoneAreEmpty(ips);
    InsertionGoesThrough(INPUT, PlanAt(ips), TheSpace(), pads);
    FreePages(TheSpace(), PlanAt(ips), 0);
  }

  lemma NoneAreEmpty(ips: seq<int>)
    ensures NoneEmpty(PlanAt(ips))
  {
    hide Old, New, Rel32Bytes;
  }

  lemma LookupIsPossible(ips: seq<int>)
    requires forall i :: 0 <= i < |ips| ==> ips[i] > 4096
    ensures LookupPossible(INPUT, ips)
  {
    assert 4096 in FUNCS;
  }

  /** What the tracer is given, and what it finds, meets every assumption but the
      one on the last function. */
  ghost predicate AllFine(ips: seq<int>, pads: nat -> nat -> Byte) {
    && Prepared(TheBinary(), INPUT) && NumbersFine(TheBinary()) && InputsFine(INPUT) && LookupPossible(INPUT, ips)
    && PlanWritten(INPUT, PlanAt(ips)) && WorldFine(TheBinary(), INPUT, PlanAt(ips), TheLink())
    && PlanAt(ips).mem == TheSpace().bytes && Mapped(TheSpace()) && Boundaries.NewTextFresh(PlanAt(ips))
    && AllPages(PlanAt(ips).boltedRecs) !! TheSpace().perm.Keys && Disjoint(PlanAt(ips).vtableRecs)
    && InsertAll(TheSpace(), FilesOf(PlanAt(ips)), pads).Running?
  }

  lemma AllIsFine(ips: seq<int>, pads: nat -> nat -> Byte)
    requires TwoFrames(ips) && forall i :: 0 <= i < |ips| ==> ips[i] > 4096
    ensures AllFine(ips, pads)
  {
    hide Prepared, NumbersFine, InputsFine, PlanWritten, WorldFine, Boundaries.NewTextFresh, TwoFrames, Mapped, AllPages, InsertAll;
    hide Old, New, OnStack, Rel32Bytes, FilesOf, LookupPossible;
    ToolsAreFine();
    PreparedFine(TheBinary(), INPUT);
    LookupIsPossible(ips);
    PlanIsWritten(ips);
    WorldIsFine(ips);
    InsertionPossible(ips, pads);
  }

  lemma CodeIsExecutable()
    ensures CodeExecutable(ThePlan(), TheSpace())
  {
    hide Old, New, Decode, Rel32Bytes;
    CallDecodes();
    SlotDecodes();
    JumpDecodes();
    WorkerDecodes();
    LastDecodes();
    forall a, k | a in CODE && Decode(Old(), a).Inst? && a <= k < a + Decode(Old(), a).size
      ensures PageOf(k) == 1
    {
      assert IsCode(a);
      assert 4096 <= k < 8192;
      PageSpan(1, k);
    }
  }

  /** The assumptions of the whole replacement hold together: of what the tools
      print, the binary, the records written, the program, the pages and the
      stacks. The insertion goes through, and the theorem says what follows. */
  lemma AssumptionsAreMet(cpu: Cpu<int>, pads: nat -> nat -> Byte)
    requires PicksWorker(cpu)
    ensures AllFine(IPS, pads)
    ensures Unwound(ThePlan(), TheProcess()) && LastFunctionQuiet(ThePlan())
    ensures CallsEntries(OldImage(ThePlan()), Entries(ThePlan()), cpu, TheProcess())
    ensures NeedsPatch(SITES, BOLTED, StackFuncs(ThePlan()), 4096)
    ensures CodeExecutable(ThePlan(), TheSpace())
    ensures EntriesFresh(ThePlan()) && SameBehaviour(OldImage(ThePlan()), TheProcess(),
      Image(InsertAll(TheSpace(), FilesOf(ThePlan()), pads).space.bytes, NewNames(ThePlan())), TheProcess(), cpu)
  {
    hide Prepared, NumbersFine, InputsFine, PlanWritten, WorldFine, Boundaries.NewTextFresh, Unwound, LastFunctionQuiet, CallsEntries, Entries;
    hide Old, New, OnStack, Rel32Bytes, SameBehaviour, EntriesFresh, Mapped, AllPages, InsertAll, FilesOf, TwoFrames, PicksWorker, After, NewNames, Base;
    StackIs(IPS);
    AllIsFine(IPS, pads);
    ThreadsUnwound();
    LastIsQuiet();
    CodeIsExecutable();
    hide CodeExecutable;
    PatchWritten(IPS);
    WorkerPicked(IPS, cpu, TheProcess());
    InsertionRunsPlan(INPUT, ThePlan(), TheSpace(), pads);
    ReplaceCodePreservesBehaviour(TheBinary(), INPUT, ThePlan(), TheLink(), Base(TheSpace(), ThePlan()), cpu, TheProcess());
  }

  /** Streams with the same records reach the same pages. */
  lemma SamePages(rs: seq<Record>, ss: seq<Record>)
    requires forall r :: r in rs <==> r in ss
    ensures AllPages(rs) == AllPages(ss)
  {
    forall p
      ensures p in AllPages(rs) <==> p in AllPages(ss)
    {
      PageVisited(rs, p);
      PageVisited(ss, p);
    }
  }

  /** Whatever order the tracer writes its records in, they are the example's. */
  lemma OtherOrder(pl: Plan)
    requires PlanWritten(INPUT, pl) && pl.ips == IPS && TwoFrames(IPS)
    ensures AllPages(pl.boltedRecs) == {2, 3}
    ensures AllPages(pl.patchRecs + pl.vtableRecs + pl.unmovedRecs) == {1, 2, 5, 6}
    ensures AllPages(pl.boltedRecs) !! TheSpace().perm.Keys
    ensures AllPages(pl.patchRecs + pl.vtableRecs + pl.unmovedRecs) <= TheSpace().perm.Keys + AllPages(pl.boltedRecs)
    ensures forall r :: r in AllRecords(pl) ==> r.payload != []
  {
    hide Old, New, Rel32Bytes, OnStack, AllPages, TwoFrames, FunctionRecord, IsMovedEntry, Elf.FirstTable, AllRecords;
    PlanIsWritten(IPS);
    PagesAre(IPS);
    var ex := ThePlan();
    assert forall r :: r in pl.boltedRecs <==> r in ex.boltedRecs;
    assert forall r :: r in pl.patchRecs <==> r in ex.patchRecs;
    assert forall r :: r in pl.vtableRecs <==> r in ex.vtableRecs;
    assert forall r :: r in pl.unmovedRecs <==> r in ex.unmovedRecs;
    SamePages(pl.boltedRecs, ex.boltedRecs);
    SamePages(pl.patchRecs + pl.vtableRecs + pl.unmovedRecs, ex.patchRecs + ex.vtableRecs + ex.unmovedRecs);
    NoneAreEmpty(IPS);
    forall r | r in AllRecords(pl)
      ensures r.payload != []
    {
      InAll(pl, r);
      InAll(ex, r);
    }
  }

  lemma AllReadable()
    ensures Elf.FunctionBytes(ELF, SYMBOLS[8192]).Contents? && Elf.FunctionBytes(ELF, SYMBOLS[4144]).Contents?
    ensures forall k :: 0 <= k < |ELF.symbols| ==> !Elf.ExtractVtable(ELF, ELF.symbols[k]).VtablePanic?
  {
    hide Elf.FunctionBytes, Elf.ExtractVtable;
    FunctionsSliced();
    TableSliced();
    forall k | 0 <= k < |ELF.symbols|
      ensures !Elf.ExtractVtable(ELF, ELF.symbols[k]).VtablePanic?
    {
      assert ELF.symbols[k] in ELF.symbols;
    }
  }

  const HERE: Regs := Regs(4135, 9000, [])

  /** A thread that stops without having made a step, and one that makes it. */
  function Stays(): Kernel { (r: Regs) => Answer(Stopped(5), r, [], true, true, true) }

  function Steps(): Kernel { (r: Regs) => Answer(Stopped(5), Regs(r.rip + 1, r.rsp, r.rest), [], true, true, true) }

  function Finishes(): Answer { Answer(Stopped(19), HERE, [], true, true, true) }

  lemma SecondThread(kernels: seq<Kernel>, ran: int, answers: seq<Answer>)
    requires kernels == [Stays(), Steps()] && 0 <= ran <= 2 && |answers| == if ran < 2 then ran + 1 else ran
    requires forall j :: 0 <= j < |answers| ==> answers[j] == kernels[j](Regs(100, HijackedStack(9000), []))
    requires forall j :: 0 <= j < |answers| ==>
      (j < ran <==> (&& answers[j].setOk && answers[j].status.Stopped? && answers[j].resetOk && answers[j].resetFpOk
                     && (answers[j].status.sig != 5 || answers[j].regs.rip <= 100)))
    ensures ran == 1 && answers[1].setOk && answers[1].status == Stopped(5) && answers[1].regs.rip > 100
  {
    hide HijackedStack;
    assert answers[0].regs.rip == 100;
    assert |answers| > 1 ==> answers[1].regs.rip == 101;
  }

  /** The whole replacement on this process: the first thread cannot step, the
      second one can and runs the library to its end, and the replacement
      succeeds. */
  method ReplaceIt(pads: nat -> nat -> Byte) returns (ending: Ended)
    ensures ending == Inserted
  {
    hide AllFine, Old, New, OnStack, Rel32Bytes, InputsFine, LookupPossible, PlanWritten, AllPages, InsertAll, InsertUntil, Mapped, HijackedStack, TheSpace;
    hide Elf.FunctionBytes, Elf.ExtractVtable, After, Base, Extends, Boundaries.NewTextFresh, FilesOf, Midway, TwoFrames, AllRecords, Stays, Steps;
    hide PlanAt, ThePlan, Replay, Overlay;
    GivenIsFine(pads);
    var space := new AddressSpace(Old(), TheSpace().perm);
    var tracee := new Tracee(map[7 := HERE, 8 := HERE], map[7 := [], 8 := []]);
    var kernels := [Stays(), Steps()];
    ghost var pl, written, ran, answers, done;
    ending, pl, written, ran, answers, done :=
      ReplaceCode(INPUT, IPS, space, tracee, [7, 8], 100, kernels, [Finishes(), Finishes()], RanToEnd, pads, New(), CODE);
    EverythingReadable();
    assert written;
    SecondThread(kernels, ran, answers);
    assert done;
    OtherOrder(pl);
  }

  lemma GivenIsFine(pads: nat -> nat -> Byte)
    ensures TwoFrames(IPS) && InputsFine(INPUT) && LookupPossible(INPUT, IPS) && Mapped(TheSpace())
    ensures TheSpace() == Space(Old(), TheSpace().perm)
  {
    hide AllFine, TwoFrames, InputsFine, LookupPossible, Mapped, Old, New;
    StackIs(IPS);
    AllIsFine(IPS, pads);
    AllMeans(IPS, pads);
  }

  lemma EverythingReadable()
    ensures forall f :: f in BOLTED && BOLTED[f].movedAddr in SYMBOLS ==>
      Elf.FunctionBytes(ELF, SYMBOLS[BOLTED[f].movedAddr]).Contents?
    ensures forall f :: f in FUNCS && f !in BOLTED && f !in OnStack(IPS, FUNCS) && f in SYMBOLS ==>
      Elf.FunctionBytes(ELF, SYMBOLS[f]).Contents?
    ensures forall k :: 0 <= k < |ELF.symbols| ==> !Elf.ExtractVtable(ELF, ELF.symbols[k]).VtablePanic?
  {
    hide Elf.FunctionBytes, Elf.ExtractVtable, OnStack, TwoFrames;
    StackIs(IPS);
    AllReadable();
    OnlyTheseDue();
  }

  lemma AllMeans(ips: seq<int>, pads: nat -> nat -> Byte)
    requires AllFine(ips, pads)
    ensures InputsFine(INPUT) && LookupPossible(INPUT, ips) && Mapped(TheSpace())
  {
  }

  lemma OnlyTheseDue()
    requires TwoFrames(IPS)
    ensures forall f :: f in BOLTED ==> BOLTED[f].movedAddr == 8192
    ensures forall f :: f in FUNCS && f !in BOLTED && f !in OnStack(IPS, FUNCS) && f in SYMBOLS ==> f == 4144
  {
    hide OnStack;
    assert forall f :: f in OnStack(IPS, FUNCS) <==> f in {4096, 4128};
  }

  // A stop within a patch

  /** The thread about to jump back to the patched call, alone. */
  function TheJumper(): Process<int> { Process(0, [Thread(4108, [])]) }

  /** Memory when the library stops after the new text and two bytes of the patch. */
  function Half(): Memory { Midway(TheSpace(), ThePlan(), 1, 2) }

  /** The library can come to this stop. */
  lemma HalfIsReached(pads: nat -> nat -> Byte)
    requires AllFine(IPS, pads)
    ensures InsertUntil(TheSpace(), FilesOf(ThePlan()), pads, 1, 2).Running?
    ensures InsertUntil(TheSpace(), FilesOf(ThePlan()), pads, 1, 2).space.bytes == Half()
  {
    hide Prepared, NumbersFine, InputsFine, PlanWritten, WorldFine, Boundaries.NewTextFresh;
    hide Old, New, OnStack, Rel32Bytes, AllPages, InsertAll, InsertUntil, Midway;
    var pl, s := ThePlan(), TheSpace();
    InsertionReaches(INPUT, pl, s, pads, 1, 2);
    InsertionStops(INPUT, pl, s, pads, 1, 2);
  }

  lemma HalfIs()
    ensures Half() == Old() + Zeros({2, 3}) + Overlay(Record(8192, BODY)) + Overlay(Record(4096, [0xE8, 0xFB]))
  {
    hide Overlay, Old, New, AllPages;
    PositiveBytes(4091, 0xFB, 0x0F, 0, 0);
    hide Rel32Bytes;
    PagesAre(IPS);
    var r, t := Record(8192, BODY), Record(4096, [0xE8, 0xFB]);
    var patch := Record(4096, [0xE8] + Rel32Bytes(4091));
    var rs, base := AllRecords(ThePlan()), Old() + Zeros({2, 3});
    assert rs[..1] == [r] && rs[1] == patch;
    assert Start(patch, 2) == t by { assert patch.payload[..2] == [0xE8, 0xFB]; }
    assert Torn(rs, 1, 2) == [r, t];
    ReplayAppend(base, [r], [t]);
    assert [r] + [t] == [r, t] && [r][1..] == [] && [t][1..] == [];
    assert Replay(base, [r]) == base + Overlay(r);
    assert Begun(ThePlan().boltedRecs, 1) == ThePlan().boltedRecs;
  }

  lemma HalfBytes()
    ensures Lies(Half(), 4096, [0xE8, 0xFB]) && Lies(Half(), 4098, CALLER[2..])
  {
    HalfIs();
    OldLies();
    hide Half, Old, Overlay;
    var all, body, torn := Old() + Zeros({2, 3}), Record(8192, BODY), Record(4096, [0xE8, 0xFB]);
    hide Lies;
    OldHolds();
    hide Present;
    LiesIn(Old(), all, 4096, CALLER);
    LiesTail(all, 4096, CALLER, 2);
    LiesStill(all, 4098, CALLER[2..], body);
    LiesStill(all + Overlay(body), 4098, CALLER[2..], torn);
    Laid(all + Overlay(body), 4096, [0xE8, 0xFB]);
  }

  lemma HalfDecodes()
    ensures Decode(Half(), 4096) == Inst(Call(4352), 5)
    ensures Decode(Half(), 4108) == Inst(Jump(4096), 5)
  {
    HalfBytes();
    hide Half, Displacement;
    DisplacementIs(Half(), 4097, 0xFB, 0, 0, 0);
    DisplacementIs(Half(), 4109, 0xEF, 0xFF, 0xFF, 0xFF);
    SmallU64(4352);
    SmallU64(4096);
  }

  /** A thread that jumps to a call first of all enters what that call names. */
  lemma EntersFirst<D>(img: Image, cpu: Cpu<D>, p: Process<D>, to: int, schedule: seq<nat>)
    requires p.threads == [Thread(4108, [])]
    requires Fetch(img.mem, 4108) == DoJump(4096) && Fetch(img.mem, 4096) == DoCall(to, 4101)
    requires Run(img, cpu, p, schedule).Moved?
    ensures Run(img, cpu, p, schedule).events != [] ==> Run(img, cpu, p, schedule).events[0] == Entered(0, NameOf(img, to))
  {
    hide Fetch, NameOf;
    if schedule != [] {
      var q := Step(img, cpu, p, schedule[0]).proc;
      assert schedule[0] == 0 && q.threads == [Thread(4096, [])];
      if schedule[1..] != [] {
        assert schedule[1..][0] == 0;
        assert Step(img, cpu, q, 0).events == [Entered(0, NameOf(img, to))];
      }
    }
  }

  lemma CanEnter<D>(img: Image, cpu: Cpu<D>, p: Process<D>, to: int)
    requires p.threads == [Thread(4108, [])]
    requires Fetch(img.mem, 4108) == DoJump(4096) && Fetch(img.mem, 4096) == DoCall(to, 4101)
    ensures HasTrace(img, cpu, p, [Entered(0, NameOf(img, to))])
  {
    hide Fetch, NameOf;
    var q := Step(img, cpu, p, 0).proc;
    assert q.threads == [Thread(4096, [])];
    assert [0, 0][1..] == [0] && [0][1..] == [];
    var last := Run(img, cpu, Step(img, cpu, q, 0).proc, []);
    assert last.Moved? && last.events == [];
    assert Run(img, cpu, q, [0]).events == [Entered(0, NameOf(img, to))];
    assert Run(img, cpu, p, [0, 0]).events == [Entered(0, NameOf(img, to))];
  }

  lemma EntersElsewhere<D>(P: Image, Q: Image, cpu: Cpu<D>, p: Process<D>, to: int, to': int)
    requires p.threads == [Thread(4108, [])]
    requires Fetch(P.mem, 4108) == DoJump(4096) && Fetch(P.mem, 4096) == DoCall(to, 4101)
    requires Fetch(Q.mem, 4108) == DoJump(4096) && Fetch(Q.mem, 4096) == DoCall(to', 4101)
    requires NameOf(P, to) != NameOf(Q, to')
    ensures !SameBehaviour(P, p, Q, p, cpu)
  {
    hide Fetch, NameOf, Run;
    var trace := [Entered(0, NameOf(P, to))];
    CanEnter(P, cpu, p, to);
    forall schedule | Run(Q, cpu, p, schedule).Moved?
      ensures Run(Q, cpu, p, schedule).events != trace
    {
      EntersFirst(Q, cpu, p, to', schedule);
    }
    assert !HasTrace(Q, cpu, p, trace);
  }

  /** What the previous theorems exclude: with every assumption met, the library
      can stop within a patch and leave a call of neither the old nor the new
      function, and the process behaves differently. */
  lemma TornPatchMisleads(cpu: Cpu<int>, pads: nat -> nat -> Byte)
    requires PicksWorker(cpu)
    ensures AllFine(IPS, pads)
    ensures Unwound(ThePlan(), TheJumper()) && LastFunctionQuiet(ThePlan())
    ensures CallsEntries(OldImage(ThePlan()), Entries(ThePlan()), cpu, TheJumper())
    ensures InsertUntil(TheSpace(), FilesOf(ThePlan()), pads, 1, 2).Running?
    ensures !Boundaries.SafeStop(ThePlan(), 1, 2) && EntriesFresh(ThePlan())
    ensures !SameBehaviour(OldImage(ThePlan()), TheJumper(),
      Image(InsertUntil(TheSpace(), FilesOf(ThePlan()), pads, 1, 2).space.bytes, NewNames(ThePlan())), TheJumper(), cpu)
  {
    hide AllFine, Unwound, LastFunctionQuiet, Old, New, OnStack, Rel32Bytes, Decode, Half, EntriesFresh, InsertUntil, InsertAll, FilesOf;
    hide SameBehaviour, NameOf, Fetch, CallsEntries, Entries, Boundaries.SafeStop, PicksWorker, TwoFrames;
    AssumptionsAreMet(cpu, pads);
    ThreadsUnwound();
    WorkerPicked(IPS, cpu, TheJumper());
    HalfIsReached(pads);
    TornHere();
    HalfFetches();
    NamesOfCalls();
    EntersElsewhere(OldImage(ThePlan()), Image(Half(), NewNames(ThePlan())), cpu, TheJumper(), 4128, 4352);
  }

  lemma TornHere()
    ensures !Boundaries.SafeStop(ThePlan(), 1, 2)
  {
    OldLies();
    PositiveBytes(4091, 0xFB, 0x0F, 0, 0);
    hide Rel32Bytes, Old, New, Boundaries.UsesCell, Boundaries.HarmlessCut;
    var r := Record(4096, [0xE8] + Rel32Bytes(4091));
    assert AllRecords(ThePlan())[1] == r;
    assert r.payload == [0xE8, 0xFB, 0x0F, 0, 0];
    PatchHarms(r);
  }

  lemma PatchHarms(r: Record)
    requires r == Record(4096, [0xE8, 0xFB, 0x0F, 0, 0])
    ensures !Boundaries.HarmlessCut(Old(), r, 2)
  {
    OldLies();
    hide Old;
    assert Covers(r, 4097) && Old()[4097] == CALLER[1] && r.payload[1] == 0xFB;
    assert Covers(r, 4098) && Old()[4098] == CALLER[2] && r.payload[2] == 0x0F;
  }

  lemma HalfFetches()
    ensures Fetch(Old(), 4108) == Fetch(Half(), 4108) == DoJump(4096)
    ensures Fetch(Old(), 4096) == DoCall(4128, 4101) && Fetch(Half(), 4096) == DoCall(4352, 4101)
  {
    hide Old, Half, Decode;
    CallDecodes();
    JumpDecodes();
    HalfDecodes();
  }

  lemma NamesOfCalls()
    requires EntriesFresh(ThePlan())
    ensures NameOf(OldImage(ThePlan()), 4128) == 4128
    ensures NameOf(Image(Half(), NewNames(ThePlan())), 4352) == 4352
  {
    hide Half, Old, New;
  }
}
