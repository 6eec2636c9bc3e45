/** Code replacement of a paused process: what is assumed of the program and of
    BOLT, what the four record streams make of memory, and the proof that the
    process then behaves as before. */
module Replacement {
  import opened Words
  import opened Code
  import opened Records
  import opened Rel32
  import opened CallSites
  import opened CallStack
  import opened Patching
  import opened Machine
  import Elf

  /** A replacement: the memory at the pause, the tables the tracer works with,
      the BOLTed image, the four record streams, and the instruction addresses
      of the original program. */
  datatype Plan = Plan(
    mem: Memory, funcs: Funcs, bolted: Funcs, sites: Table, ips: seq<int>,
    img: Memory, boltedRecs: seq<Record>, patchRecs: seq<Record>, vtableRecs: seq<Record>, unmovedRecs: seq<Record>,
    code: set<int>)

  function AllRecords(pl: Plan): seq<Record> {
    pl.boltedRecs + (pl.patchRecs + pl.vtableRecs + pl.unmovedRecs)
  }

  ghost function StackFuncs(pl: Plan): Funcs { OnStack(pl.ips, pl.funcs) }

  /** Where a function's entry lives in the BOLTed binary. */
  function Rename(pl: Plan, t: int): int {
    if t in pl.bolted then pl.bolted[t].movedAddr else t
  }

  // The original program

  /** An instruction that no function has strictly inside. */
  ghost predicate IsEntry(pl: Plan, t: int) {
    t in pl.code && forall f :: f in pl.funcs ==> !StrictlyInside(pl.funcs, f, t)
  }

  predicate InFunc(pl: Plan, f: int, a: int) {
    f in pl.funcs && f <= a < f + pl.funcs[f].originalSize
  }

  /** Some bytes of the function are replaced in place. */
  ghost predicate Overwritten(pl: Plan, f: int) {
    exists r :: r in pl.unmovedRecs && r.addr == f && r.payload != []
  }

  /** A jump stays in its function, goes to an entry, or goes to a function that
      is not overwritten. */
  ghost predicate JumpAllowed(pl: Plan, a: int, t: int) {
    t in pl.code && forall f :: f in pl.funcs && StrictlyInside(pl.funcs, f, t) && Overwritten(pl, f) ==> InFunc(pl, f, a)
  }

  ghost predicate FlowAllowed(pl: Plan, a: int, op: Operation, next: int) {
    match op
    case Op(_) => next in pl.code
    case Branch(_, t) => next in pl.code && JumpAllowed(pl, a, t)
    case Jump(t) => JumpAllowed(pl, a, t)
    case Call(t) => next in pl.code && IsEntry(pl, t)
    case CallSlot(s) => next in pl.code && Has(pl.mem, s, 8) && IsEntry(pl, LE(Bytes(pl.mem, s, 8)))
    case CallData => next in pl.code
    case Point(t) => next in pl.code && IsEntry(pl, t)
    case Ret => true
  }

  /** An instruction that overlaps no other, straddles no function boundary and
      passes control to instructions only, entering functions at their start. */
  ghost predicate InstructionFine(pl: Plan, a: int) {
    var d := Decode(pl.mem, a);
    && d.Inst?
    && (forall b :: b in pl.code && a < b ==> a + d.size <= b)
    && (forall f :: f in pl.funcs && a < f ==> a + d.size <= f)
    && (forall f :: InFunc(pl, f, a) ==> a + d.size <= f + pl.funcs[f].originalSize)
    && FlowAllowed(pl, a, d.op, a + d.size)
  }

  ghost predicate ProgramFine(pl: Plan) {
    Separate(pl.funcs) && forall a :: a in pl.code ==> InstructionFine(pl, a)
  }

  // The BOLTed binary

  /** The records that carry code. */
  function Bodies(pl: Plan): seq<Record> { pl.boltedRecs + pl.unmovedRecs }

  /** Control continues at corresponding addresses: inside the same body or new
      text, in old code that stays, or at a function entry and its new place. */
  ghost predicate Continues(pl: Plan, l: Link, body: Record, a: int, b: int) {
    || (a in pl.code && l.rel(a, b) && (Covers(body, b) || InNewText(pl, b)))
    || (a in pl.code && b == a && Kept(pl, a))
    || (IsEntry(pl, a) && b == Rename(pl, a))
  }

  /** The instruction of the original at `a` and that of the new body at `b` do
      the same, with entries renamed; one side may take a jump alone. */
  ghost predicate Corresponds(pl: Plan, l: Link, body: Record, a: int, b: int) {
    var d, e := Decode(pl.mem, a), Decode(pl.img, b);
    && d.Inst? && e.Inst? && b + e.size <= body.addr + |body.payload|
    && (|| (d.op.Jump? && Continues(pl, l, body, d.op.target, b) && l.rank(d.op.target, b) < l.rank(a, b))
        || (e.op.Jump? && Continues(pl, l, body, a, e.op.target) && l.rank(a, e.op.target) < l.rank(a, b))
        || (d.op.Jump? && e.op.Jump? && Continues(pl, l, body, d.op.target, e.op.target))
        || (d.op.Op? && e.op == d.op && Continues(pl, l, body, a + d.size, b + e.size))
        || (d.op.Branch? && e.op.Branch?
            && forall flag: bool :: Continues(pl, l, body, Chosen(d, a, flag), Chosen(e, b, flag)))
        || (d.op.Call? && e.op == Call(Rename(pl, d.op.target)) && Continues(pl, l, body, a + d.size, b + e.size))
        || (d.op.CallSlot? && e.op == d.op && Continues(pl, l, body, a + d.size, b + e.size))
        || (d.op.CallData? && e.op.CallData? && Continues(pl, l, body, a + d.size, b + e.size))
        || (d.op.Point? && e.op in {d.op, Point(Rename(pl, d.op.target))} && Continues(pl, l, body, a + d.size, b + e.size))
        || (d.op.Ret? && e.op.Ret?))
  }

  /** Where a branch at `a` goes under a flag. */
  function Chosen(d: Decoded, a: int, flag: bool): int
    requires d.Inst? && d.op.Branch?
  {
    if flag != d.op.negated then d.op.target else a + d.size
  }

  /** BOLT's promise: a correspondence between each function and its new body,
      starting at the entries. */
  ghost predicate BoltFine(pl: Plan, l: Link) {
    && (forall r, a, b :: r in Bodies(pl) && a in pl.code && l.rel(a, b) && Covers(r, b) ==> Corresponds(pl, l, r, a, b))
    && (forall f :: f in pl.bolted ==> l.rel(f, pl.bolted[f].movedAddr) && InNewText(pl, pl.bolted[f].movedAddr))
    && (forall r :: r in pl.unmovedRecs ==> r.addr in pl.code && l.rel(r.addr, r.addr))
  }

  ghost predicate InNewText(pl: Plan, b: int) {
    exists r :: r in pl.boltedRecs && Covers(r, b)
  }

  ghost predicate IsBodyAt(pl: Plan, b: int) {
    exists r :: r in Bodies(pl) && Covers(r, b)
  }

  /** New entries are new, and no two functions share one. */
  ghost predicate EntriesFresh(pl: Plan) {
    && (forall f :: f in pl.bolted ==> pl.bolted[f].movedAddr !in pl.code && 0 <= pl.bolted[f].movedAddr < TWO_63)
    && DistinctEntries(pl.bolted)
  }

  ghost predicate DistinctEntries(bolted: Funcs) {
    forall f, g :: f in bolted && g in bolted && bolted[f].movedAddr == bolted[g].movedAddr ==> f == g
  }

  // The record streams

  ghost predicate CoversInstruction(pl: Plan, r: Record) {
    exists a, k :: a in pl.code && Decode(pl.mem, a).Inst? && a <= k < a + Decode(pl.mem, a).size && Covers(r, k)
  }

  /** Records copied from the BOLTed image: moved functions and v-tables lie
      apart from the original instructions, an unmoved function stays within
      its old extent and is neither moved nor on a stack. */
  ghost predicate RecordsFine(pl: Plan) {
    && (forall r :: r in pl.boltedRecs || r in pl.vtableRecs || r in pl.unmovedRecs ==> Elf.IsSliceOf(pl.img, r))
    && (forall r :: r in pl.boltedRecs || r in pl.vtableRecs ==> !CoversInstruction(pl, r))
    && (forall r :: r in pl.unmovedRecs ==>
          && r.addr in pl.funcs && r.addr !in pl.bolted && r.addr !in StackFuncs(pl)
          && |r.payload| <= pl.funcs[r.addr].originalSize)
  }

  /** A recorded call site that gets patched is a direct call of its function,
      recorded with its real target, and near enough for the encoder. */
  ghost predicate SiteFine(pl: Plan, a: int)
    requires CallsMoved(pl.sites, pl.bolted, a)
  {
    var site := pl.sites[a];
    && a in pl.code
    && Decode(pl.mem, a) == Inst(Call(site.target), 5)
    && site.nextAddr == a + 5
    && InFunc(pl, site.belongedFunc, a)
    && Encodable(Distance(pl.sites, pl.bolted, a))
  }

  ghost predicate PatchesFine(pl: Plan) {
    && (forall a :: NeedsPatch(pl.sites, pl.bolted, StackFuncs(pl), a) ==> SiteFine(pl, a))
    && (forall r :: r in pl.patchRecs ==>
          NeedsPatch(pl.sites, pl.bolted, StackFuncs(pl), r.addr) && r == Patch(pl.sites, pl.bolted, r.addr))
  }

  /** A cell that an indirect call reads lies apart from the code and is copied
      as a whole from a BOLTed v-table that renames its entry or leaves it, or
      touched by no v-table. */
  ghost predicate TableFine(pl: Plan, s: int)
    requires Has(pl.mem, s, 8)
  {
    && (forall a :: a in pl.code && Decode(pl.mem, a).Inst? ==> a + Decode(pl.mem, a).size <= s || s + 8 <= a)
    && (forall r, k :: r in pl.unmovedRecs && s <= k < s + 8 ==> !Covers(r, k))
    && (|| (&& Has(pl.img, s, 8) && LE(Bytes(pl.img, s, 8)) in {LE(Bytes(pl.mem, s, 8)), Rename(pl, LE(Bytes(pl.mem, s, 8)))}
            && exists r :: r in pl.vtableRecs && CoversCell(r, s))
        || (forall r, k :: r in pl.vtableRecs && s <= k < s + 8 ==> !Covers(r, k)))
  }

  /** New text does not cover the cell either. */
  ghost predicate SlotFine(pl: Plan, s: int)
    requires Has(pl.mem, s, 8)
  {
    TableFine(pl, s) && forall r, k :: r in pl.boltedRecs && s <= k < s + 8 ==> !Covers(r, k)
  }

  predicate CoversCell(r: Record, s: int) { r.addr <= s && s + 8 <= r.addr + |r.payload| }

  ghost predicate SlotsFine(pl: Plan) {
    forall a :: a in pl.code && Decode(pl.mem, a).Inst? && Decode(pl.mem, a).op.CallSlot? && Has(pl.mem, Decode(pl.mem, a).op.slot, 8)
      ==> SlotFine(pl, Decode(pl.mem, a).op.slot)
  }

  ghost predicate PlanFine(pl: Plan, l: Link) {
    && ProgramFine(pl) && BoltFine(pl, l) && EntriesFresh(pl)
    && RecordsFine(pl) && PatchesFine(pl) && SlotsFine(pl)
  }

  // Memory afterwards

  /** Fresh pages may have been added before the records were replayed. */
  predicate Extends(base: Memory, mem: Memory) {
    forall k :: k in mem ==> k in base && base[k] == mem[k]
  }

  ghost function After(pl: Plan, base: Memory): Memory { Replay(base, AllRecords(pl)) }

  lemma InAll(pl: Plan, r: Record)
    ensures r in AllRecords(pl) <==> r in pl.boltedRecs || r in pl.patchRecs || r in pl.vtableRecs || r in pl.unmovedRecs
  {
  }

  /** The four-phase order cannot matter: bytes of a patch are covered neither
      by an overwritten function, since the caller is on a stack, nor by a moved
      function or a v-table. */
  lemma PatchClear(pl: Plan, p: Record, r: Record, k: int)
    requires ProgramFine(pl) && RecordsFine(pl) && PatchesFine(pl)
    requires p in pl.patchRecs && Covers(p, k)
    requires r in pl.boltedRecs || r in pl.vtableRecs || r in pl.unmovedRecs
    ensures !Covers(r, k)
  {
    hide Encodable, Rel32Bytes, LE, U64;
    assert SiteFine(pl, p.addr) && |p.payload| == 5 && InstructionFine(pl, p.addr);
    if r in pl.unmovedRecs {
      var f := pl.sites[p.addr].belongedFunc;
      assert InFunc(pl, f, p.addr) && f in StackFuncs(pl) && f != r.addr;
      var end, end' := f + pl.funcs[f].originalSize, r.addr + pl.funcs[r.addr].originalSize;
      assert end <= r.addr || end' <= f;
    } else {
      assert Covers(r, k) ==> CoversInstruction(pl, r);
    }
  }

  /** Two patches that overlap are the same. */
  lemma PatchesApart(pl: Plan, p: Record, r: Record, k: int)
    requires ProgramFine(pl) && PatchesFine(pl)
    requires p in pl.patchRecs && r in pl.patchRecs && Covers(p, k) && Covers(r, k)
    ensures r == p
  {
    hide Encodable, Rel32Bytes, LE, U64;
    assert SiteFine(pl, p.addr) && |p.payload| == 5 && InstructionFine(pl, p.addr);
    assert SiteFine(pl, r.addr) && |r.payload| == 5 && InstructionFine(pl, r.addr);
  }

  lemma Sliced(pl: Plan, r: Record)
    requires RecordsFine(pl) && (r in pl.boltedRecs || r in pl.vtableRecs || r in pl.unmovedRecs)
    ensures Elf.IsSliceOf(pl.img, r)
  {
  }

  lemma StreamsConsistent(pl: Plan)
    requires ProgramFine(pl) && RecordsFine(pl) && PatchesFine(pl)
    ensures Consistent(AllRecords(pl))
  {
    hide ProgramFine, PatchesFine, RecordsFine, AllRecords;
    forall r, s, k | r in AllRecords(pl) && s in AllRecords(pl) && Covers(r, k) && Covers(s, k)
      ensures r.payload[k - r.addr] == s.payload[k - s.addr]
    {
      InAll(pl, r);
      InAll(pl, s);
      if r in pl.patchRecs && s in pl.patchRecs {
        PatchesApart(pl, r, s, k);
      } else if r in pl.patchRecs {
        PatchClear(pl, r, s, k);
      } else if s in pl.patchRecs {
        PatchClear(pl, s, r, k);
      } else {
        Sliced(pl, r);
        Sliced(pl, s);
      }
    }
  }

  /** A byte of a body or v-table is the BOLTed image's. */
  lemma ByteFromImage(pl: Plan, base: Memory, r: Record, k: int)
    requires ProgramFine(pl) && RecordsFine(pl) && PatchesFine(pl)
    requires r in pl.boltedRecs || r in pl.vtableRecs || r in pl.unmovedRecs
    requires Covers(r, k)
    ensures k in After(pl, base) && k in pl.img && After(pl, base)[k] == pl.img[k]
  {
    hide ProgramFine, PatchesFine, RecordsFine, AllRecords, Replay, Consistent;
    StreamsConsistent(pl);
    InAll(pl, r);
    ReplayInside(base, AllRecords(pl), r, k);
    Sliced(pl, r);
  }

  /** A byte no record covers is the original's. */
  lemma ByteKept(pl: Plan, base: Memory, k: int)
    requires Extends(base, pl.mem) && k in pl.mem && !Covered(AllRecords(pl), k)
    ensures k in After(pl, base) && After(pl, base)[k] == pl.mem[k]
  {
    ReplayOutside(base, AllRecords(pl), k);
  }

  // The correspondence for the mixed memory

  /** Not in the extent of an overwritten function. */
  ghost predicate Kept(pl: Plan, a: int) {
    forall r :: r in pl.unmovedRecs && r.payload != [] ==> !InFunc(pl, r.addr, a)
  }

  /** Old code corresponds to itself where it stays, and to BOLT's bodies. */
  ghost predicate Mixed(pl: Plan, l: Link, a: int, b: int) {
    a in pl.code && ((a == b && Kept(pl, a)) || (l.rel(a, b) && IsBodyAt(pl, b)))
  }

  /** Old code or the entry of an overwritten function. */
  lemma SelfMixed(pl: Plan, l: Link, a: int)
    requires RecordsFine(pl) && BoltFine(pl, l) && a in pl.code
    requires forall r :: r in pl.unmovedRecs && r.payload != [] ==> !StrictlyInside(pl.funcs, r.addr, a)
    ensures Mixed(pl, l, a, a)
  {
    if !Kept(pl, a) {
      var r :| r in pl.unmovedRecs && r.payload != [] && InFunc(pl, r.addr, a);
      assert r.addr == a && Covers(r, a) && r in Bodies(pl);
    }
  }

  lemma EntryMixed(pl: Plan, l: Link, t: int)
    requires RecordsFine(pl) && BoltFine(pl, l) && IsEntry(pl, t)
    ensures Mixed(pl, l, t, t) && Mixed(pl, l, t, Rename(pl, t))
  {
    SelfMixed(pl, l, t);
    assert InNewText(pl, Rename(pl, t)) ==> IsBodyAt(pl, Rename(pl, t));
  }

  lemma NextMixed(pl: Plan, l: Link, a: int)
    requires RecordsFine(pl) && BoltFine(pl, l) && a in pl.code && Kept(pl, a) && InstructionFine(pl, a)
    requires a + Decode(pl.mem, a).size in pl.code
    ensures Mixed(pl, l, a + Decode(pl.mem, a).size, a + Decode(pl.mem, a).size)
  {
    DecodedSize(pl.mem, a);
    SelfMixed(pl, l, a + Decode(pl.mem, a).size);
  }

  lemma JumpMixed(pl: Plan, l: Link, a: int, t: int)
    requires RecordsFine(pl) && BoltFine(pl, l) && Kept(pl, a) && JumpAllowed(pl, a, t)
    ensures Mixed(pl, l, t, t)
  {
    SelfMixed(pl, l, t);
  }

  lemma ContinuesMixed(pl: Plan, l: Link, body: Record, a: int, b: int)
    requires RecordsFine(pl) && BoltFine(pl, l) && body in Bodies(pl)
    requires Continues(pl, l, body, a, b)
    ensures Mixed(pl, l, a, b)
  {
    if IsEntry(pl, a) {
      EntryMixed(pl, l, a);
    }
    assert InNewText(pl, b) || Covers(body, b) ==> IsBodyAt(pl, b);
  }

  // Decoding the memory afterwards

  predicate Patched(pl: Plan, a: int) { exists r :: r in pl.patchRecs && r.addr == a }

  /** Outside the patches, kept instructions are covered by no record. */
  lemma KeptUncovered(pl: Plan, a: int, k: int)
    requires ProgramFine(pl) && RecordsFine(pl) && PatchesFine(pl)
    requires a in pl.code && Kept(pl, a) && a <= k < a + Decode(pl.mem, a).size
    ensures forall r :: r in AllRecords(pl) && r !in pl.patchRecs ==> !Covers(r, k)
    ensures !Patched(pl, a) ==> !Covered(AllRecords(pl), k)
  {
    hide Encodable, Rel32Bytes, LE, U64;
    assert InstructionFine(pl, a);
    forall r | r in AllRecords(pl)
      ensures r !in pl.patchRecs || r.addr != a ==> !Covers(r, k)
    {
      InAll(pl, r);
      if r in pl.patchRecs {
        assert SiteFine(pl, r.addr) && |r.payload| == 5 && InstructionFine(pl, r.addr);
      } else if r in pl.unmovedRecs {
        KeptMissed(pl, a, r, k);
      } else {
        assert Covers(r, k) ==> CoversInstruction(pl, r);
      }
    }
  }

  lemma KeptMissed(pl: Plan, a: int, r: Record, k: int)
    requires InstructionFine(pl, a) && RecordsFine(pl) && Kept(pl, a) && r in pl.unmovedRecs
    requires a in pl.code && a <= k < a + Decode(pl.mem, a).size
    ensures !Covers(r, k)
  {
    hide Decode, OnStack, CoversInstruction, Elf.IsSliceOf;
    if r.payload != [] {
      var end := r.addr + pl.funcs[r.addr].originalSize;
      assert !InFunc(pl, r.addr, a);
      assert a + Decode(pl.mem, a).size <= r.addr || end <= a;
    }
  }

  /** A kept instruction that is not patched decodes as before. */
  lemma DecodeKept(pl: Plan, base: Memory, a: int)
    requires ProgramFine(pl) && RecordsFine(pl) && PatchesFine(pl) && Extends(base, pl.mem)
    requires a in pl.code && Kept(pl, a) && !Patched(pl, a)
    ensures Decode(After(pl, base), a) == Decode(pl.mem, a)
  {
    var n := Decode(pl.mem, a).size;
    assert InstructionFine(pl, a);
    DecodedSize(pl.mem, a);
    forall k | a <= k < a + n
      ensures k in pl.mem && k in After(pl, base) && After(pl, base)[k] == pl.mem[k]
    {
      KeptUncovered(pl, a, k);
      ByteKept(pl, base, k);
    }
    DecodeAgrees(pl.mem, After(pl, base), a);
  }

  lemma PatchBytes(pl: Plan, base: Memory, p: Record)
    requires ProgramFine(pl) && RecordsFine(pl) && PatchesFine(pl)
    requires p in pl.patchRecs && |p.payload| == 5
    ensures Has(After(pl, base), p.addr, 5) && Bytes(After(pl, base), p.addr, 5) == p.payload
  {
    hide Rel32Bytes, LE, Decode, SiteFine, ProgramFine, RecordsFine, PatchesFine, Consistent, AllRecords, Replay;
    StreamsConsistent(pl);
    InAll(pl, p);
    forall k | p.addr <= k < p.addr + 5
      ensures k in After(pl, base) && After(pl, base)[k] == p.payload[k - p.addr]
    {
      ReplayInside(base, AllRecords(pl), p, k);
    }
    assert Bytes(After(pl, base), p.addr, 5) == p.payload;
  }

  lemma PatchAt(pl: Plan, a: int) returns (p: Record, moved: int)
    requires ProgramFine(pl) && PatchesFine(pl) && EntriesFresh(pl) && Patched(pl, a)
    ensures NeedsPatch(pl.sites, pl.bolted, StackFuncs(pl), a) && SiteFine(pl, a)
    ensures moved == Rename(pl, pl.sites[a].target)
    ensures p in pl.patchRecs && p.addr == a && |p.payload| == 5
    ensures p.payload == [0xE8] + Rel32Bytes(moved - (a + 5))
    ensures 0 <= moved < TWO_64 && IsLong(moved - (a + 5)) && Encodable(moved - (a + 5))
  {
    hide Rel32Bytes, LE, Decode, StackFuncs, ProgramFine;
    p :| p in pl.patchRecs && p.addr == a;
    moved := pl.bolted[pl.sites[a].target].movedAddr;
    assert SiteFine(pl, a);
  }

  /** A patched site calls the moved function. */
  lemma DecodePatched(pl: Plan, base: Memory, a: int)
    requires ProgramFine(pl) && RecordsFine(pl) && PatchesFine(pl) && EntriesFresh(pl)
    requires Patched(pl, a)
    ensures NeedsPatch(pl.sites, pl.bolted, StackFuncs(pl), a) && SiteFine(pl, a)
    ensures Decode(After(pl, base), a) == Inst(Call(Rename(pl, pl.sites[a].target)), 5)
  {
    hide Rel32Bytes, LE, Decode, After, StackFuncs, ProgramFine, RecordsFine, PatchesFine, SiteFine, Encodable;
    var p, moved := PatchAt(pl, a);
    PatchBytes(pl, base, p);
    PatchReaches(After(pl, base), a, moved);
  }

  /** An instruction of a body decodes as in the BOLTed image. */
  lemma DecodeBody(pl: Plan, base: Memory, r: Record, b: int)
    requires ProgramFine(pl) && RecordsFine(pl) && PatchesFine(pl)
    requires r in Bodies(pl) && Covers(r, b)
    requires Decode(pl.img, b).Inst? && b + Decode(pl.img, b).size <= r.addr + |r.payload|
    ensures Decode(After(pl, base), b) == Decode(pl.img, b)
  {
    forall k | b <= k < b + Decode(pl.img, b).size
      ensures k in pl.img && k in After(pl, base) && After(pl, base)[k] == pl.img[k]
    {
      ByteFromImage(pl, base, r, k);
    }
    DecodeAgrees(pl.img, After(pl, base), b);
  }

  /** An indirect call's cell holds the old entry or its renaming. */
  lemma SlotAfter(pl: Plan, base: Memory, s: int)
    requires ProgramFine(pl) && RecordsFine(pl) && PatchesFine(pl) && Extends(base, pl.mem)
    requires Has(pl.mem, s, 8) && SlotFine(pl, s)
    ensures Has(After(pl, base), s, 8)
    ensures LE(Bytes(After(pl, base), s, 8)) in {LE(Bytes(pl.mem, s, 8)), Rename(pl, LE(Bytes(pl.mem, s, 8)))}
  {
    hide LE, Rel32Bytes, Encodable;
    var fin := After(pl, base);
    if r :| r in pl.vtableRecs && CoversCell(r, s) && Has(pl.img, s, 8)
            && LE(Bytes(pl.img, s, 8)) in {LE(Bytes(pl.mem, s, 8)), Rename(pl, LE(Bytes(pl.mem, s, 8)))} {
      forall k | s <= k < s + 8
        ensures k in fin && fin[k] == pl.img[k]
      {
        ByteFromImage(pl, base, r, k);
      }
      BytesAgree(pl.img, fin, s, 8);
    } else {
      forall k | s <= k < s + 8
        ensures k in fin && fin[k] == pl.mem[k]
      {
        SlotUncovered(pl, s, k);
        ByteKept(pl, base, k);
      }
      BytesAgree(pl.mem, fin, s, 8);
    }
  }

  lemma SlotUncovered(pl: Plan, s: int, k: int)
    requires ProgramFine(pl) && RecordsFine(pl) && PatchesFine(pl)
    requires Has(pl.mem, s, 8) && SlotFine(pl, s) && s <= k < s + 8
    requires forall r, n :: (r in pl.boltedRecs || r in pl.vtableRecs || r in pl.unmovedRecs) && s <= n < s + 8 ==> !Covers(r, n)
    ensures !Covered(AllRecords(pl), k)
  {
    hide LE, Rel32Bytes, Encodable;
    forall r | r in AllRecords(pl)
      ensures !Covers(r, k)
    {
      InAll(pl, r);
      if r in pl.patchRecs {
        assert SiteFine(pl, r.addr) && |r.payload| == 5;
        assert r.addr in pl.code && Decode(pl.mem, r.addr).size == 5;
      }
    }
  }

  // The bisimulation

  /** The names of moved entries: the functions they were. */
  ghost function MovedNames(bolted: Funcs): (names: map<int, int>)
    requires DistinctEntries(bolted)
    ensures forall f :: f in bolted ==> bolted[f].movedAddr in names && names[bolted[f].movedAddr] == f
    ensures forall b :: b in names ==> exists f :: f in bolted && bolted[f].movedAddr == b
  {
    map f | f in bolted :: bolted[f].movedAddr := f
  }

  ghost function NewNames(pl: Plan): map<int, int>
    requires EntriesFresh(pl)
  {
    MovedNames(pl.bolted)
  }

  ghost function OldImage(pl: Plan): Image { Image(pl.mem, map[]) }

  ghost function NewImage(pl: Plan, base: Memory): Image
    requires EntriesFresh(pl)
  {
    Image(After(pl, base), NewNames(pl))
  }

  /** Old and new entries of a function have the same name. */
  lemma NamesAgree(pl: Plan, base: Memory, t: int)
    requires EntriesFresh(pl) && t in pl.code
    ensures NameOf(NewImage(pl, base), t) == t
    ensures NameOf(NewImage(pl, base), Rename(pl, t)) == t
    ensures NameOf(OldImage(pl), t) == t
  {
  }

  ghost function MixedLink(pl: Plan, l: Link): Link {
    Link((a, b) => Mixed(pl, l, a, b), l.rank)
  }

  /** Everything assumed, and memory as the four phases leave it. */
  ghost predicate Replaced(pl: Plan, l: Link, base: Memory) {
    PlanFine(pl, l) && Extends(base, pl.mem)
  }

  lemma Fine(pl: Plan, a: int)
    requires ProgramFine(pl) && a in pl.code
    ensures InstructionFine(pl, a)
  {
  }

  lemma OnlyInstructions(pl: Plan, t: int)
    requires IsEntry(pl, t)
    ensures t in pl.code
  {
  }

  lemma CellFine(pl: Plan, a: int)
    requires ProgramFine(pl) && SlotsFine(pl) && a in pl.code && Decode(pl.mem, a).Inst? && Decode(pl.mem, a).op.CallSlot?
    ensures Has(pl.mem, Decode(pl.mem, a).op.slot, 8) && SlotFine(pl, Decode(pl.mem, a).op.slot)
  {
    Fine(pl, a);
  }

  lemma PairFine(pl: Plan, l: Link, r: Record, a: int, b: int)
    requires BoltFine(pl, l) && r in Bodies(pl) && a in pl.code && l.rel(a, b) && Covers(r, b)
    ensures Corresponds(pl, l, r, a, b)
  {
  }

  /** The fetched instruction of a kept address corresponds to the old one. */
  lemma KeptMatches(pl: Plan, l: Link, base: Memory, a: int)
    requires Replaced(pl, l, base) && a in pl.code && Kept(pl, a)
    ensures Matches(OldImage(pl), NewImage(pl, base), MixedLink(pl, l), a, a)
  {
    hide Decode, LE, After, SlotFine, Rel32Bytes, Kept, NewNames, Mixed, Matches, StackFuncs;
    hide ProgramFine, BoltFine, EntriesFresh, RecordsFine, PatchesFine, SlotsFine;
    var P, Q, m := OldImage(pl), NewImage(pl, base), MixedLink(pl, l);
    var d := Decode(pl.mem, a);
    Fine(pl, a);
    if Patched(pl, a) {
      DecodePatched(pl, base, a);
      CallMatches(pl, l, base, a, a, pl.sites[a].target, Rename(pl, pl.sites[a].target), a + 5, a + 5);
    } else {
      DecodeKept(pl, base, a);
      match d.op
      case Op(_) =>
        NextMixed(pl, l, a);
        MatchOps(P, Q, m, a, a);
      case Branch(_, t) =>
        NextMixed(pl, l, a);
        JumpMixed(pl, l, a, t);
        MatchBranches(P, Q, m, a, a);
      case Jump(t) =>
        JumpMixed(pl, l, a, t);
        MatchJumps(P, Q, m, a, a);
      case Call(t) => CallMatches(pl, l, base, a, a, t, t, a + d.size, a + d.size);
      case CallSlot(s) =>
        CellFine(pl, a);
        SlotAfter(pl, base, s);
        CallMatches(pl, l, base, a, a, LE(Bytes(pl.mem, s, 8)), LE(Bytes(After(pl, base), s, 8)), a + d.size, a + d.size);
      case CallData =>
        NextMixed(pl, l, a);
        MatchPicks(P, Q, m, a, a);
      case Point(t) =>
        NextMixed(pl, l, a);
        OnlyInstructions(pl, t);
        NamesAgree(pl, base, t);
        MatchPoints(P, Q, m, a, a);
      case Ret => MatchRets(P, Q, m, a, a);
    }
  }

  /** Calls of a function, at its old or its new entry, that return to
      corresponding places. */
  lemma CallMatches(pl: Plan, l: Link, base: Memory, a: int, b: int, t: int, t': int, next: int, next': int)
    requires Replaced(pl, l, base) && IsEntry(pl, t) && (t' == t || t' == Rename(pl, t))
    requires Fetch(pl.mem, a) == DoCall(t, next) && Fetch(After(pl, base), b) == DoCall(t', next')
    requires a in pl.code
    requires Mixed(pl, l, next, next') || (a == b && Kept(pl, a) && next == next' == a + Decode(pl.mem, a).size && next in pl.code)
    ensures Matches(OldImage(pl), NewImage(pl, base), MixedLink(pl, l), a, b)
  {
    hide Decode, LE, After, NewNames, Mixed, Matches, Fetch;
    hide ProgramFine, BoltFine, EntriesFresh, RecordsFine, PatchesFine, SlotsFine, Kept, IsEntry;
    OnlyInstructions(pl, t);
    Fine(pl, a);
    EntryMixed(pl, l, t);
    NamesAgree(pl, base, t);
    if !Mixed(pl, l, next, next') {
      NextMixed(pl, l, a);
    }
    MatchCalls(OldImage(pl), NewImage(pl, base), MixedLink(pl, l), a, b);
  }

  /** Continuations BOLT promises are correspondences of the mixed memory. */
  lemma AllContinue(pl: Plan, l: Link, r: Record)
    requires RecordsFine(pl) && BoltFine(pl, l) && r in Bodies(pl)
    ensures forall x, y :: Continues(pl, l, r, x, y) ==> MixedLink(pl, l).rel(x, y)
  {
    forall x, y | Continues(pl, l, r, x, y)
      ensures Mixed(pl, l, x, y)
    {
      ContinuesMixed(pl, l, r, x, y);
    }
  }

  /** The fetched instruction of a new body corresponds to the old one. */
  lemma BodyMatches(pl: Plan, l: Link, base: Memory, a: int, b: int)
    requires Replaced(pl, l, base) && a in pl.code && l.rel(a, b) && IsBodyAt(pl, b)
    ensures Matches(OldImage(pl), NewImage(pl, base), MixedLink(pl, l), a, b)
  {
    hide Decode, LE, After, SlotFine, Rel32Bytes, Kept, NewNames, Continues, Mixed, Matches, StackFuncs;
    hide ProgramFine, BoltFine, EntriesFresh, RecordsFine, PatchesFine, SlotsFine, IsEntry, JumpAllowed;
    var r :| r in Bodies(pl) && Covers(r, b);
    PairFine(pl, l, r, a, b);
    Fine(pl, a);
    DecodeBody(pl, base, r, b);
    AllContinue(pl, l, r);
    var P, Q, m := OldImage(pl), NewImage(pl, base), MixedLink(pl, l);
    var d, e := Decode(pl.mem, a), Decode(pl.img, b);
    if d.op.Jump? && Continues(pl, l, r, d.op.target, b) && l.rank(d.op.target, b) < l.rank(a, b) {
      MatchLeftJump(P, Q, m, a, b);
    } else if e.op.Jump? && Continues(pl, l, r, a, e.op.target) && l.rank(a, e.op.target) < l.rank(a, b) {
      MatchRightJump(P, Q, m, a, b);
    } else if d.op.Jump? {
      MatchJumps(P, Q, m, a, b);
    } else if d.op.Op? {
      MatchOps(P, Q, m, a, b);
    } else if d.op.Branch? {
      assert Continues(pl, l, r, Chosen(d, a, true), Chosen(e, b, true));
      assert Continues(pl, l, r, Chosen(d, a, false), Chosen(e, b, false));
      MatchBranches(P, Q, m, a, b);
    } else if d.op.Ret? {
      MatchRets(P, Q, m, a, b);
    } else {
      BodyCallMatches(pl, l, base, r, a, b);
    }
  }

  /** The same for calls and for the creation of function pointers. */
  lemma BodyCallMatches(pl: Plan, l: Link, base: Memory, r: Record, a: int, b: int)
    requires Replaced(pl, l, base) && a in pl.code && l.rel(a, b) && r in Bodies(pl) && Covers(r, b)
    requires Decode(pl.mem, a).Inst? && Decode(pl.img, b).Inst? && Decode(After(pl, base), b) == Decode(pl.img, b)
    requires Decode(pl.mem, a).op.Call? || Decode(pl.mem, a).op.CallSlot? || Decode(pl.mem, a).op.CallData? || Decode(pl.mem, a).op.Point?
    requires !(Decode(pl.img, b).op.Jump? && Continues(pl, l, r, a, Decode(pl.img, b).op.target)
               && l.rank(a, Decode(pl.img, b).op.target) < l.rank(a, b))
    ensures Matches(OldImage(pl), NewImage(pl, base), MixedLink(pl, l), a, b)
  {
    hide Decode, LE, After, SlotFine, Rel32Bytes, Kept, NewNames, Continues, Mixed, Matches, StackFuncs;
    hide ProgramFine, BoltFine, EntriesFresh, RecordsFine, PatchesFine, SlotsFine, IsEntry, JumpAllowed;
    PairFine(pl, l, r, a, b);
    Fine(pl, a);
    AllContinue(pl, l, r);
    var P, Q, m := OldImage(pl), NewImage(pl, base), MixedLink(pl, l);
    var d, e := Decode(pl.mem, a), Decode(pl.img, b);
    match d.op
    case Call(t) => CallMatches(pl, l, base, a, b, t, e.op.target, a + d.size, b + e.size);
    case CallSlot(s) =>
      CellFine(pl, a);
      SlotAfter(pl, base, s);
      CallMatches(pl, l, base, a, b, LE(Bytes(pl.mem, s, 8)), LE(Bytes(After(pl, base), s, 8)), a + d.size, b + e.size);
    case CallData => MatchPicks(P, Q, m, a, b);
    case Point(t) =>
      OnlyInstructions(pl, t);
      NamesAgree(pl, base, t);
      MatchPoints(P, Q, m, a, b);
  }

  lemma ReplacementBisimulates(pl: Plan, l: Link, base: Memory)
    requires Replaced(pl, l, base)
    ensures Bisimulates(OldImage(pl), NewImage(pl, base), MixedLink(pl, l))
  {
    hide Matches;
    forall a, b | MixedLink(pl, l).rel(a, b)
      ensures Matches(OldImage(pl), NewImage(pl, base), MixedLink(pl, l), a, b)
    {
      if l.rel(a, b) && IsBodyAt(pl, b) {
        BodyMatches(pl, l, base, a, b);
      } else {
        KeptMatches(pl, l, base, a);
      }
    }
  }

  /** The places that calls may enter. */
  ghost function Entries(pl: Plan): set<int> {
    set t | t in pl.code && IsEntry(pl, t)
  }

  lemma EntriesShared(pl: Plan, l: Link, base: Memory)
    requires Replaced(pl, l, base)
    ensures SharesEntries(OldImage(pl), NewImage(pl, base), MixedLink(pl, l), Entries(pl))
  {
    hide ProgramFine, BoltFine, RecordsFine, PatchesFine, SlotsFine, Mixed, After, IsEntry, NameOf, EntriesFresh;
    forall t | t in Entries(pl)
      ensures Mixed(pl, l, t, t)
      ensures NameOf(OldImage(pl), t) == NameOf(NewImage(pl, base), t)
    {
      EntryMixed(pl, l, t);
      NamesAgree(pl, base, t);
    }
  }

  // The paused process

  /** Every frame was unwound: the program counters and the return addresses are
      instructions, and are among the stack addresses the tracer saw. */
  ghost predicate Unwound<D>(pl: Plan, p: Process<D>) {
    forall i :: 0 <= i < |p.threads| ==>
      && p.threads[i].pc in pl.code && p.threads[i].pc in pl.ips
      && forall k :: 0 <= k < |p.threads[i].stack| ==> p.threads[i].stack[k] in pl.code && p.threads[i].stack[k] in pl.ips
  }

  /** No thread has a frame strictly inside the last function, unless that
      function moved: the one case the stack lookup misses. */
  ghost predicate LastFunctionQuiet(pl: Plan) {
    forall f, i :: 0 <= i < |pl.ips| && IsLast(pl.funcs, f) && StrictlyInside(pl.funcs, f, pl.ips[i]) ==> f in pl.bolted
  }

  lemma FramesMixed<D>(pl: Plan, l: Link, p: Process<D>)
    requires PlanFine(pl, l) && Unwound(pl, p) && LastFunctionQuiet(pl)
    ensures Related(MixedLink(pl, l), p, p)
  {
    hide BoltFine, PatchesFine, SlotsFine;
    ExposedExactly(pl.funcs, pl.bolted, pl.ips);
    forall ip | ip in pl.ips && ip in pl.code
      ensures Mixed(pl, l, ip, ip)
    {
      var i :| 0 <= i < |pl.ips| && pl.ips[i] == ip;
      forall r | r in pl.unmovedRecs
        ensures !StrictlyInside(pl.funcs, r.addr, ip)
      {
        assert r.addr !in pl.bolted && r.addr !in OnStack(pl.ips, pl.funcs);
      }
      SelfMixed(pl, l, ip);
    }
    forall i | 0 <= i < |p.threads|
      ensures RelatedThreads(MixedLink(pl, l), p.threads[i], p.threads[i])
    {
    }
  }

  /** The process resumed on the replaced code has exactly the traces of the
      process left alone: the same operations, the same function entries and the
      same function pointers, for any number of threads, any stacks and any
      schedule. */
  lemma ReplacementPreservesBehaviour<D>(pl: Plan, l: Link, base: Memory, cpu: Cpu<D>, p: Process<D>)
    requires PlanFine(pl, l) && Extends(base, pl.mem)
    requires Unwound(pl, p) && LastFunctionQuiet(pl) && CallsEntries(OldImage(pl), Entries(pl), cpu, p)
    ensures SameBehaviour(OldImage(pl), p, NewImage(pl, base), p, cpu)
  {
    hide CallsEntries, Bisimulates, SharesEntries, Related, SameBehaviour;
    ReplacementBisimulates(pl, l, base);
    EntriesShared(pl, l, base);
    FramesMixed(pl, l, p);
    SameTraces(OldImage(pl), NewImage(pl, base), MixedLink(pl, l), Entries(pl), cpu, p, p);
  }

  /** On-stack safety, instruction by instruction: an instruction of a function
      with a frame keeps its bytes, unless it is a recorded call of a moved
      function; then it is the same five-byte call with the moved entry as its
      target. */
  lemma OnStackInstruction(pl: Plan, base: Memory, f: int, a: int)
    requires ProgramFine(pl) && RecordsFine(pl) && PatchesFine(pl) && EntriesFresh(pl) && Extends(base, pl.mem)
    requires f in StackFuncs(pl) && a in pl.code && InFunc(pl, f, a)
    ensures !Patched(pl, a) ==> Agree(pl.mem, After(pl, base), a, Decode(pl.mem, a).size)
    ensures Patched(pl, a) ==>
      && NeedsPatch(pl.sites, pl.bolted, StackFuncs(pl), a)
      && Decode(pl.mem, a) == Inst(Call(pl.sites[a].target), 5)
      && Decode(After(pl, base), a) == Inst(Call(Rename(pl, pl.sites[a].target)), 5)
  {
    forall r | r in pl.unmovedRecs
      ensures !InFunc(pl, r.addr, a)
    {
      NotOverwritten(pl, f, r, a);
    }
    if Patched(pl, a) {
      DecodePatched(pl, base, a);
    } else {
      Fine(pl, a);
      DecodedSize(pl.mem, a);
      forall k | a <= k < a + Decode(pl.mem, a).size
        ensures k in pl.mem && k in After(pl, base) && After(pl, base)[k] == pl.mem[k]
      {
        KeptUncovered(pl, a, k);
        ByteKept(pl, base, k);
      }
    }
  }

  /** A function with a frame lies apart from every overwritten one. */
  lemma NotOverwritten(pl: Plan, f: int, r: Record, k: int)
    requires ProgramFine(pl) && RecordsFine(pl)
    requires f in StackFuncs(pl) && InFunc(pl, f, k) && r in pl.unmovedRecs
    ensures !InFunc(pl, r.addr, k) && !Covers(r, k)
  {
    hide InstructionFine, IsEntry, OnStack;
    var end, end' := f + pl.funcs[f].originalSize, r.addr + pl.funcs[r.addr].originalSize;
    assert f != r.addr && (end <= r.addr || end' <= f);
  }

  /** `k` is one of the four displacement bytes of a patched call. */
  ghost predicate PatchedOperand(pl: Plan, k: int) { exists a :: Patched(pl, a) && a < k < a + 5 }

  /** Neither new text nor a v-table covers `k`. */
  ghost predicate ApartFromNew(pl: Plan, k: int) {
    forall r :: r in pl.boltedRecs || r in pl.vtableRecs ==> !Covers(r, k)
  }

  /** On-stack safety, byte by byte: in the whole extent of a function with a
      frame, padding, tables and other data included, the displacements of the
      patched calls are all that changes. */
  lemma OnStackSafety(pl: Plan, base: Memory, f: int, k: int)
    requires ProgramFine(pl) && RecordsFine(pl) && PatchesFine(pl) && EntriesFresh(pl) && Extends(base, pl.mem)
    requires f in StackFuncs(pl) && InFunc(pl, f, k) && k in pl.mem
    requires ApartFromNew(pl, k)
    ensures k in After(pl, base)
    ensures !PatchedOperand(pl, k) ==> After(pl, base)[k] == pl.mem[k]
  {
    hide ProgramFine, RecordsFine, PatchesFine, EntriesFresh, After, StackFuncs, SiteFine, Patched, Decode, Rel32Bytes, AllRecords;
    if Covered(AllRecords(pl), k) {
      var r :| r in AllRecords(pl) && Covers(r, k);
      InAll(pl, r);
      if r in pl.unmovedRecs {
        NotOverwritten(pl, f, r, k);
      } else {
        PatchedHere(pl, r);
        PatchOpcode(pl, base, r.addr);
      }
    } else {
      ByteKept(pl, base, k);
    }
  }

  lemma PatchedHere(pl: Plan, r: Record)
    requires ProgramFine(pl) && PatchesFine(pl) && r in pl.patchRecs
    ensures Patched(pl, r.addr) && |r.payload| == 5
  {
  }

  /** The opcode of a patched call stays, and its bytes are there. */
  lemma PatchOpcode(pl: Plan, base: Memory, a: int)
    requires ProgramFine(pl) && RecordsFine(pl) && PatchesFine(pl) && EntriesFresh(pl)
    requires Patched(pl, a)
    ensures a in pl.mem && Has(After(pl, base), a, 5) && After(pl, base)[a] == pl.mem[a]
  {
    hide ProgramFine, RecordsFine, PatchesFine, EntriesFresh, After, StackFuncs, Patched, LE, Rel32Bytes, SiteFine;
    DecodePatched(pl, base, a);
    hide Encodable;
    DecodedSize(After(pl, base), a);
    CallDecoded(After(pl, base), a);
    PatchedSite(pl, a);
    CallDecoded(pl.mem, a);
  }

  lemma PatchedSite(pl: Plan, a: int)
    requires CallsMoved(pl.sites, pl.bolted, a) && SiteFine(pl, a)
    ensures Decode(pl.mem, a) == Inst(Call(pl.sites[a].target), 5)
  {
  }

  lemma CallDecoded(m: Memory, a: int)
    requires Decode(m, a).Inst? && Decode(m, a).op.Call?
    ensures a in m && m[a] == 0xE8
  {
  }

  /** No record has a stack address strictly inside its bytes: none is a patch
      cut by a return address, and none overwrites a function being executed. */
  lemma NoRecordOverFrame(pl: Plan, ip: int, r: Record)
    requires ProgramFine(pl) && RecordsFine(pl) && PatchesFine(pl) && LastFunctionQuiet(pl)
    requires ip in pl.ips && ip in pl.code && r in AllRecords(pl)
    ensures !(r.addr < ip && Covers(r, ip))
  {
    hide Encodable, Rel32Bytes, LE, U64, Attributed;
    InAll(pl, r);
    Fine(pl, ip);
    if r in pl.patchRecs {
      assert SiteFine(pl, r.addr) && |r.payload| == 5;
      Fine(pl, r.addr);
    } else if r in pl.unmovedRecs {
      ExposedExactly(pl.funcs, pl.bolted, pl.ips);
      var i :| 0 <= i < |pl.ips| && pl.ips[i] == ip;
      assert !Exposed(pl.funcs, pl.bolted, pl.ips);
      assert StrictlyInside(pl.funcs, r.addr, pl.ips[i]) ==> Exposed(pl.funcs, pl.bolted, pl.ips);
    } else {
      DecodedSize(pl.mem, ip);
      assert Covers(r, ip) ==> CoversInstruction(pl, r);
    }
  }
}
