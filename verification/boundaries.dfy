/** Where an insertion may be cut short: at every record boundary, within new
    text, within a patch that makes no difference there, and between the cells of
    a v-table, the process still behaves as before. */
module Boundaries {
  import opened Words
  import opened Code
  import opened Records
  import opened CallSites
  import opened CallStack
  import opened Patching
  import opened Rel32
  import opened Machine
  import opened Replacement
  import Elf

  /** The first phase writes to fresh pages only. */
  ghost predicate NewTextFresh(pl: Plan) {
    forall r, k :: r in pl.boltedRecs && Covers(r, k) ==> k !in pl.mem
  }

  /** The plan with only the first records of the later three phases. */
  function Cut(pl: Plan, i: nat, j: nat, k: nat): Plan
    requires i <= |pl.patchRecs| && j <= |pl.vtableRecs| && k <= |pl.unmovedRecs|
  {
    pl.(patchRecs := pl.patchRecs[..i], vtableRecs := pl.vtableRecs[..j], unmovedRecs := pl.unmovedRecs[..k])
  }

  /** A cut within the later phases, as lengths of the three streams. */
  lemma CutAt(pl: Plan, n: nat) returns (i: nat, j: nat, k: nat)
    requires |pl.boltedRecs| <= n <= |AllRecords(pl)|
    ensures i <= |pl.patchRecs| && j <= |pl.vtableRecs| && k <= |pl.unmovedRecs|
    ensures AllRecords(Cut(pl, i, j, k)) == AllRecords(pl)[..n]
  {
    var m := n - |pl.boltedRecs|;
    i := if m < |pl.patchRecs| then m else |pl.patchRecs|;
    j := if m - i < |pl.vtableRecs| then m - i else |pl.vtableRecs|;
    k := m - i - j;
    var rest := pl.patchRecs + pl.vtableRecs + pl.unmovedRecs;
    assert AllRecords(pl)[..n] == pl.boltedRecs + rest[..m];
    PrefixOfThree(pl.patchRecs, pl.vtableRecs, pl.unmovedRecs, i, j, k);
  }

  lemma PrefixOfThree(a: seq<Record>, b: seq<Record>, c: seq<Record>, i: nat, j: nat, k: nat)
    requires i <= |a| && j <= |b| && k <= |c|
    requires (j > 0 ==> i == |a|) && (k > 0 ==> i == |a| && j == |b|)
    ensures (a + b + c)[..i + j + k] == a[..i] + b[..j] + c[..k]
  {
  }

  /** The same replacement with fewer patches and overwritten functions, and with
      the starts of some v-tables only. */
  ghost predicate Narrowed(pl: Plan, cut: Plan) {
    && cut == pl.(patchRecs := cut.patchRecs, vtableRecs := cut.vtableRecs, unmovedRecs := cut.unmovedRecs)
    && (forall r :: r in cut.patchRecs ==> r in pl.patchRecs)
    && (forall r :: r in cut.unmovedRecs ==> r in pl.unmovedRecs)
    && (forall r :: r in cut.vtableRecs ==> exists v :: v in pl.vtableRecs && StartOf(r, v))
  }

  predicate StartOf(r: Record, v: Record) { r.addr == v.addr && r.payload <= v.payload }

  lemma CutCorresponds(pl: Plan, l: Link, cut: Plan)
    requires Narrowed(pl, cut) && BoltFine(pl, l)
    ensures BoltFine(cut, l)
  {
    hide Decode;
    forall a
      ensures IsEntry(cut, a) <==> IsEntry(pl, a)
    {
    }
    forall r, a, b | r in Bodies(cut) && a in cut.code && l.rel(a, b) && Covers(r, b)
      ensures Corresponds(cut, l, r, a, b)
    {
      assert r in Bodies(pl);
      assert Corresponds(pl, l, r, a, b);
      SameContinuations(pl, cut, l, r);
      hide Continues, IsEntry;
    }
    forall f | f in cut.bolted
      ensures InNewText(cut, cut.bolted[f].movedAddr)
    {
      assert InNewText(pl, pl.bolted[f].movedAddr);
    }
  }

  lemma SameContinuations(pl: Plan, cut: Plan, l: Link, r: Record)
    requires Narrowed(pl, cut)
    ensures forall a, b :: Continues(pl, l, r, a, b) ==> Continues(cut, l, r, a, b)
  {
    assert forall a :: Replacement.Kept(pl, a) ==> Replacement.Kept(cut, a);
    assert forall b :: InNewText(pl, b) ==> InNewText(cut, b);
  }

  lemma CutProgram(pl: Plan, cut: Plan)
    requires Narrowed(pl, cut) && ProgramFine(pl)
    ensures ProgramFine(cut)
  {
    hide InstructionFine;
    forall a | a in cut.code
      ensures InstructionFine(cut, a)
    {
      assert InstructionFine(pl, a);
      SameInstruction(pl, cut, a);
    }
  }

  lemma SameInstruction(pl: Plan, cut: Plan, a: int)
    requires Narrowed(pl, cut) && InstructionFine(pl, a)
    ensures InstructionFine(cut, a)
  {
    hide Decode, LE, Separate;
    forall t
      ensures IsEntry(cut, t) <==> IsEntry(pl, t)
      ensures JumpAllowed(pl, a, t) ==> JumpAllowed(cut, a, t)
    {
      SameEntry(pl, cut, a, t);
    }
    hide IsEntry, JumpAllowed, Narrowed;
  }

  lemma SameEntry(pl: Plan, cut: Plan, a: int, t: int)
    requires Narrowed(pl, cut)
    ensures IsEntry(cut, t) <==> IsEntry(pl, t)
    ensures JumpAllowed(pl, a, t) ==> JumpAllowed(cut, a, t)
  {
    assert forall f :: Overwritten(cut, f) ==> Overwritten(pl, f);
  }

  lemma SameEntries(pl: Plan, cut: Plan)
    requires Narrowed(pl, cut)
    ensures Entries(cut) == Entries(pl)
  {
    hide IsEntry, Narrowed;
    forall t
      ensures IsEntry(cut, t) <==> IsEntry(pl, t)
    {
      SameEntry(pl, cut, t, t);
    }
    assert cut.code == pl.code by { NarrowedCode(pl, cut); }
  }

  lemma NarrowedCode(pl: Plan, cut: Plan)
    requires Narrowed(pl, cut)
    ensures cut.code == pl.code
  {
  }

  lemma CutStreams(pl: Plan, cut: Plan)
    requires Narrowed(pl, cut) && RecordsFine(pl) && PatchesFine(pl)
    ensures RecordsFine(cut) && PatchesFine(cut)
  {
    hide Decode, LE, OnStack;
    forall r | r in cut.vtableRecs
      ensures Elf.IsSliceOf(cut.img, r) && !CoversInstruction(cut, r)
    {
      var v :| v in pl.vtableRecs && StartOf(r, v);
      StartIsSlice(pl.img, r, v);
      assert !CoversInstruction(pl, v);
      assert forall k :: Covers(r, k) ==> Covers(v, k);
    }
    forall a | NeedsPatch(pl.sites, pl.bolted, StackFuncs(pl), a)
      ensures SiteFine(cut, a)
    {
      assert SiteFine(pl, a);
    }
    forall r | r in cut.boltedRecs
      ensures !CoversInstruction(cut, r)
    {
      assert !CoversInstruction(pl, r);
    }
  }

  lemma StartIsSlice(img: Memory, r: Record, v: Record)
    requires StartOf(r, v) && Elf.IsSliceOf(img, v)
    ensures Elf.IsSliceOf(img, r)
  {
    forall k | Covers(r, k)
      ensures k in img && img[k] == r.payload[k - r.addr]
    {
      assert Covers(v, k) && v.payload[k - v.addr] == r.payload[k - r.addr];
    }
  }

  lemma CutNarrows(pl: Plan, i: nat, j: nat, k: nat)
    requires i <= |pl.patchRecs| && j <= |pl.vtableRecs| && k <= |pl.unmovedRecs|
    ensures Narrowed(pl, Cut(pl, i, j, k))
  {
    forall r | r in pl.vtableRecs[..j]
      ensures exists v :: v in pl.vtableRecs && StartOf(r, v)
    {
      assert r in pl.vtableRecs && StartOf(r, r);
    }
  }

  /** Cells are copied whole or not at all, so a cut between records never
      leaves half an entry. */
  lemma CutSlots(pl: Plan, i: nat, j: nat, k: nat)
    requires i <= |pl.patchRecs| && j <= |pl.vtableRecs| && k <= |pl.unmovedRecs|
    requires SlotsFine(pl) && Disjoint(pl.vtableRecs)
    ensures SlotsFine(Cut(pl, i, j, k))
  {
    hide Decode, LE;
    var cut := Cut(pl, i, j, k);
    forall s | Has(pl.mem, s, 8) && SlotFine(pl, s)
      ensures SlotFine(cut, s)
    {
      assert forall r :: r in cut.unmovedRecs ==> r in pl.unmovedRecs;
      assert forall r :: r in cut.vtableRecs ==> r in pl.vtableRecs;
      if r :| r in pl.vtableRecs && CoversCell(r, s) {
        if r !in cut.vtableRecs {
          OthersMissCell(pl.vtableRecs, j, r, s);
        }
      }
    }
  }

  lemma OthersMissCell(rs: seq<Record>, j: nat, r: Record, s: int)
    requires Disjoint(rs) && j <= |rs| && r in rs && r !in rs[..j] && CoversCell(r, s)
    ensures forall t, k :: t in rs[..j] && s <= k < s + 8 ==> !Covers(t, k)
  {
    var m :| 0 <= m < |rs| && rs[m] == r;
    forall t | t in rs[..j]
      ensures Apart(t, r)
    {
      var n :| 0 <= n < j && rs[..j][n] == t;
      assert m >= j ==> Apart(rs[n], rs[m]);
    }
  }

  lemma CutFine(pl: Plan, l: Link, cut: Plan)
    requires Narrowed(pl, cut) && PlanFine(pl, l) && SlotsFine(cut)
    ensures PlanFine(cut, l)
  {
    hide Narrowed, ProgramFine, BoltFine, RecordsFine, PatchesFine, SlotsFine;
    CutProgram(pl, cut);
    CutCorresponds(pl, l, cut);
    CutStreams(pl, cut);
    assert EntriesFresh(cut) by { SameFreshness(pl, cut); }
  }

  lemma SameFreshness(pl: Plan, cut: Plan)
    requires Narrowed(pl, cut) && EntriesFresh(pl)
    ensures EntriesFresh(cut)
  {
  }

  /** A part of the replacement that is itself fine leaves the process as it was. */
  lemma PartBehaves<D>(pl: Plan, l: Link, cut: Plan, base: Memory, cpu: Cpu<D>, p: Process<D>)
    requires Narrowed(pl, cut) && PlanFine(pl, l) && SlotsFine(cut) && Extends(base, pl.mem)
    requires Unwound(pl, p) && LastFunctionQuiet(pl) && CallsEntries(OldImage(pl), Entries(pl), cpu, p)
    ensures SameBehaviour(OldImage(pl), p, Image(Replay(base, AllRecords(cut)), NewNames(pl)), p, cpu)
  {
    hide ProgramFine, BoltFine, RecordsFine, PatchesFine, SlotsFine, Replay, SameBehaviour, Extends, CallsEntries, Entries;
    CutFine(pl, l, cut);
    CutFrames(pl, cut, p);
    SameEntries(pl, cut);
    assert cut.mem == pl.mem && cut.bolted == pl.bolted;
    ReplacementPreservesBehaviour(cut, l, base, cpu, p);
  }

  lemma CutFrames<D>(pl: Plan, cut: Plan, p: Process<D>)
    requires Narrowed(pl, cut) && Unwound(pl, p) && LastFunctionQuiet(pl)
    ensures Unwound(cut, p) && LastFunctionQuiet(cut)
  {
  }

  // Within the first phase

  /** Every old instruction is fetched as before. */
  ghost predicate Untouched(pl: Plan, fin: Memory) {
    forall a :: a in pl.code ==> Fetch(fin, a) == Fetch(pl.mem, a)
  }

  lemma ExtensionFetches(pl: Plan, fin: Memory)
    requires ProgramFine(pl) && Extends(fin, pl.mem)
    ensures Untouched(pl, fin)
  {
    hide Fetch, InstructionFine;
    forall a | a in pl.code
      ensures Fetch(fin, a) == Fetch(pl.mem, a)
    {
      Fine(pl, a);
      ExtensionFetch(pl, fin, a);
    }
  }

  lemma ExtensionFetch(pl: Plan, fin: Memory, a: int)
    requires InstructionFine(pl, a) && Extends(fin, pl.mem)
    ensures Fetch(fin, a) == Fetch(pl.mem, a)
  {
    hide Decode, LE, IsEntry, JumpAllowed;
    DecodedSize(pl.mem, a);
    DecodeAgrees(pl.mem, fin, a);
    var op := Decode(pl.mem, a).op;
    if op.CallSlot? {
      BytesAgree(pl.mem, fin, op.slot, 8);
    }
  }

  function Same(code: set<int>): Link { Link((a, b) => a == b && a in code, (a, b) => 0) }

  lemma UntouchedMatches(pl: Plan, fin: Memory, a: int)
    requires ProgramFine(pl) && EntriesFresh(pl) && Untouched(pl, fin) && a in pl.code
    ensures Matches(OldImage(pl), Image(fin, NewNames(pl)), Same(pl.code), a, a)
  {
    hide Decode, LE, JumpAllowed, MovedNames, EntriesFresh, ProgramFine, Matches;
    var P, Q, l := OldImage(pl), Image(fin, NewNames(pl)), Same(pl.code);
    Fine(pl, a);
    assert Fetch(fin, a) == Fetch(pl.mem, a);
    hide Untouched;
    match Decode(pl.mem, a).op
    case Op(_) => MatchOps(P, Q, l, a, a);
    case Branch(_, t) =>
      assert t in pl.code by { JumpStays(pl, a, t); }
      MatchBranches(P, Q, l, a, a);
    case Jump(t) =>
      assert t in pl.code by { JumpStays(pl, a, t); }
      MatchJumps(P, Q, l, a, a);
    case Call(t) =>
      NamesAgree(pl, map[], t);
      MatchCalls(P, Q, l, a, a);
    case CallSlot(s) =>
      NamesAgree(pl, map[], LE(Bytes(pl.mem, s, 8)));
      MatchCalls(P, Q, l, a, a);
    case CallData => MatchPicks(P, Q, l, a, a);
    case Point(t) =>
      NamesAgree(pl, map[], t);
      MatchPoints(P, Q, l, a, a);
    case Ret => MatchRets(P, Q, l, a, a);
  }

  lemma JumpStays(pl: Plan, a: int, t: int)
    requires JumpAllowed(pl, a, t)
    ensures t in pl.code
  {
  }

  /** A process whose old instructions are all in place behaves as before. */
  lemma UntouchedBehaves<D>(pl: Plan, fin: Memory, cpu: Cpu<D>, p: Process<D>)
    requires ProgramFine(pl) && EntriesFresh(pl) && Untouched(pl, fin) && Unwound(pl, p)
    requires CallsEntries(OldImage(pl), Entries(pl), cpu, p)
    ensures SameBehaviour(OldImage(pl), p, Image(fin, NewNames(pl)), p, cpu)
  {
    hide Matches, ProgramFine, EntriesFresh, Untouched, MovedNames, CallsEntries, SameBehaviour, IsEntry;
    var P, Q, l := OldImage(pl), Image(fin, NewNames(pl)), Same(pl.code);
    forall a, b | l.rel(a, b)
      ensures Matches(P, Q, l, a, b)
    {
      UntouchedMatches(pl, fin, a);
    }
    forall i | 0 <= i < |p.threads|
      ensures RelatedThreads(l, p.threads[i], p.threads[i])
    {
    }
    forall t | t in Entries(pl)
      ensures NameOf(P, t) == NameOf(Q, t)
    {
      NamesAgree(pl, map[], t);
    }
    SameTraces(P, Q, l, Entries(pl), cpu, p, p);
  }

  lemma FirstPhaseExtends(pl: Plan, base: Memory, n: nat)
    requires NewTextFresh(pl) && Extends(base, pl.mem) && n <= |pl.boltedRecs|
    ensures Extends(Replay(base, pl.boltedRecs[..n]), pl.mem)
  {
    forall k | k in pl.mem
      ensures k in Replay(base, pl.boltedRecs[..n]) && Replay(base, pl.boltedRecs[..n])[k] == pl.mem[k]
    {
      assert !Covered(pl.boltedRecs[..n], k);
      ReplayOutside(base, pl.boltedRecs[..n], k);
    }
  }

  /** After any number of records, in the order of the four phases, the process
      has exactly the traces it had. */
  lemma SafeAtEveryRecord<D>(pl: Plan, l: Link, base: Memory, n: nat, cpu: Cpu<D>, p: Process<D>)
    requires PlanFine(pl, l) && Extends(base, pl.mem) && NewTextFresh(pl) && Disjoint(pl.vtableRecs)
    requires Unwound(pl, p) && LastFunctionQuiet(pl) && CallsEntries(OldImage(pl), Entries(pl), cpu, p)
    requires n <= |AllRecords(pl)|
    ensures SameBehaviour(OldImage(pl), p, Image(Replay(base, AllRecords(pl)[..n]), NewNames(pl)), p, cpu)
  {
    hide ProgramFine, BoltFine, RecordsFine, PatchesFine, SlotsFine, Disjoint, Replay, SameBehaviour, Unwound, LastFunctionQuiet, NewTextFresh, EntriesFresh, MovedNames, Extends, Untouched, CallsEntries, Narrowed;
    if n <= |pl.boltedRecs| {
      assert AllRecords(pl)[..n] == pl.boltedRecs[..n];
      FirstPhaseExtends(pl, base, n);
      ExtensionFetches(pl, Replay(base, pl.boltedRecs[..n]));
      UntouchedBehaves(pl, Replay(base, pl.boltedRecs[..n]), cpu, p);
    } else {
      var i, j, k := CutAt(pl, n);
      CutNarrows(pl, i, j, k);
      CutSlots(pl, i, j, k);
      PartBehaves(pl, l, Cut(pl, i, j, k), base, cpu, p);
    }
  }

  // Within a record

  /** The record at which the copying stops belongs to the second phase. */
  predicate IsPatch(pl: Plan, n: nat) {
    |pl.boltedRecs| <= n < |pl.boltedRecs| + |pl.patchRecs|
  }

  predicate IsTable(pl: Plan, n: nat) {
    |pl.boltedRecs| + |pl.patchRecs| <= n < |pl.boltedRecs| + |pl.patchRecs| + |pl.vtableRecs|
  }

  /** What of the patch was copied, or what was not, is in the program anyway. */
  ghost predicate HarmlessCut(mem: Memory, r: Record, m: nat) {
    || (forall k :: r.addr <= k < r.addr + m && Covers(r, k) ==> k in mem && mem[k] == r.payload[k - r.addr])
    || (forall k :: r.addr + m <= k && Covers(r, k) ==> k in mem && mem[k] == r.payload[k - r.addr])
  }

  /** The program calls through the cell at `s`. */
  ghost predicate UsesCell(pl: Plan, s: int) {
    exists a :: a in pl.code && Decode(pl.mem, a).Inst? && Decode(pl.mem, a).op == CallSlot(s)
  }

  /** Stops that do no harm: between records, within new text, within a patch
      where it makes no difference, and between the cells of a v-table. */
  ghost predicate SafeStop(pl: Plan, n: nat, m: nat) {
    n < |AllRecords(pl)| && 0 < m < |AllRecords(pl)[n].payload| ==>
      || n < |pl.boltedRecs|
      || (IsPatch(pl, n) && HarmlessCut(pl.mem, AllRecords(pl)[n], m))
      || (IsTable(pl, n) && forall s :: UsesCell(pl, s) ==> AllRecords(pl)[n].addr + m <= s || s + 8 <= AllRecords(pl)[n].addr + m)
  }

  /** Wherever the copying stops in one of these ways, the process has exactly
      the traces it had. */
  lemma SafeWhenStopped<D>(pl: Plan, l: Link, base: Memory, n: nat, m: nat, cpu: Cpu<D>, p: Process<D>)
    requires PlanFine(pl, l) && Extends(base, pl.mem) && NewTextFresh(pl) && Disjoint(pl.vtableRecs)
    requires Unwound(pl, p) && LastFunctionQuiet(pl) && CallsEntries(OldImage(pl), Entries(pl), cpu, p)
    requires SafeStop(pl, n, m)
    ensures SameBehaviour(OldImage(pl), p, Image(Replay(base, Torn(AllRecords(pl), n, m)), NewNames(pl)), p, cpu)
  {
    hide ProgramFine, BoltFine, RecordsFine, PatchesFine, SlotsFine, Disjoint, Replay, SameBehaviour, Unwound, LastFunctionQuiet, NewTextFresh, EntriesFresh, MovedNames, Extends, Untouched, CallsEntries, UsesCell, HarmlessCut, Narrowed, AllRecords;
    var rs := AllRecords(pl);
    if n >= |rs| {
      assert rs[..|rs|] == rs;
      SafeAtEveryRecord(pl, l, base, |rs|, cpu, p);
    } else if m == 0 {
      TornBetween(base, rs, n, m);
      SafeAtEveryRecord(pl, l, base, n, cpu, p);
    } else if m >= |rs[n].payload| {
      TornBetween(base, rs, n, m);
      SafeAtEveryRecord(pl, l, base, n + 1, cpu, p);
    } else if n < |pl.boltedRecs| {
      var fin := Replay(base, Torn(rs, n, m));
      TornNewTextExtends(pl, base, n, m);
      ExtensionFetches(pl, fin);
      UntouchedBehaves(pl, fin, cpu, p);
    } else if IsPatch(pl, n) && HarmlessCut(pl.mem, rs[n], m) {
      TornPatchHarmless(pl, base, n, m);
      SafeAtEveryRecord(pl, l, base, n, cpu, p);
      SafeAtEveryRecord(pl, l, base, n + 1, cpu, p);
    } else {
      var j := n - |pl.boltedRecs| - |pl.patchRecs|;
      TornTableNarrows(pl, n, j, m);
      TornTableSlots(pl, j, m);
      PartBehaves(pl, l, TornTable(pl, j, m), base, cpu, p);
    }
  }

  lemma TornNewTextExtends(pl: Plan, base: Memory, n: nat, m: nat)
    requires NewTextFresh(pl) && Extends(base, pl.mem) && n < |pl.boltedRecs|
    ensures Extends(Replay(base, Torn(AllRecords(pl), n, m)), pl.mem)
  {
    var torn := Torn(AllRecords(pl), n, m);
    assert AllRecords(pl)[..n] == pl.boltedRecs[..n] && AllRecords(pl)[n] == pl.boltedRecs[n];
    forall k | k in pl.mem
      ensures k in Replay(base, torn) && Replay(base, torn)[k] == pl.mem[k]
    {
      assert forall r :: r in torn && Covers(r, k) ==> r in pl.boltedRecs || Covers(pl.boltedRecs[n], k);
      assert !Covered(torn, k);
      ReplayOutside(base, torn, k);
    }
  }

  /** Before a patch is copied, its bytes are the program's, or its own if it was
      copied before. */
  lemma BeforePatch(pl: Plan, base: Memory, n: nat, k: int)
    requires ProgramFine(pl) && RecordsFine(pl) && PatchesFine(pl) && Extends(base, pl.mem)
    requires IsPatch(pl, n) && Covers(AllRecords(pl)[n], k) && k in pl.mem
    ensures var now, r := Replay(base, AllRecords(pl)[..n]), AllRecords(pl)[n];
      k in now && (now[k] == pl.mem[k] || now[k] == r.payload[k - r.addr])
    ensures AllRecords(pl)[n] !in AllRecords(pl)[..n] ==> Replay(base, AllRecords(pl)[..n])[k] == pl.mem[k]
  {
    hide ProgramFine, RecordsFine, PatchesFine, Replay, Consistent;
    var rs := AllRecords(pl);
    var done, r := rs[..n], rs[n];
    assert r in pl.patchRecs;
    forall q | q in done && Covers(q, k)
      ensures q == r
    {
      InAll(pl, q);
      if q in pl.patchRecs {
        PatchesApart(pl, r, q, k);
      } else {
        PatchClear(pl, r, q, k);
      }
    }
    if Covered(done, k) {
      StreamsConsistent(pl);
      PartConsistent(rs, done);
      ReplayInside(base, done, r, k);
    } else {
      ReplayOutside(base, done, k);
    }
  }

  lemma PartConsistent(rs: seq<Record>, part: seq<Record>)
    requires Consistent(rs) && forall r :: r in part ==> r in rs
    ensures Consistent(part)
  {
  }

  lemma TornPatchHarmless(pl: Plan, base: Memory, n: nat, m: nat)
    requires ProgramFine(pl) && RecordsFine(pl) && PatchesFine(pl) && Extends(base, pl.mem)
    requires IsPatch(pl, n) && n < |AllRecords(pl)| && 0 < m < |AllRecords(pl)[n].payload|
    requires HarmlessCut(pl.mem, AllRecords(pl)[n], m)
    ensures var rs := AllRecords(pl);
      || Replay(base, Torn(rs, n, m)) == Replay(base, rs[..n])
      || Replay(base, Torn(rs, n, m)) == Replay(base, rs[..n + 1])
  {
    hide ProgramFine, RecordsFine, PatchesFine, Extends, Replay, AllRecords, Overlay, IsPatch, Start, HarmlessCut;
    var rs := AllRecords(pl);
    var now, r := Replay(base, rs[..n]), rs[n];
    ReplayOne(base, rs[..n], Start(r, m));
    ReplayOne(base, rs[..n], r);
    assert rs[..n + 1] == rs[..n] + [r];
    PatchBefore(pl, base, n);
    HarmlessCopy(pl.mem, now, r, m);
  }

  lemma PatchBefore(pl: Plan, base: Memory, n: nat)
    requires ProgramFine(pl) && RecordsFine(pl) && PatchesFine(pl) && Extends(base, pl.mem)
    requires IsPatch(pl, n) && n < |AllRecords(pl)|
    ensures var now, r := Replay(base, AllRecords(pl)[..n]), AllRecords(pl)[n];
      forall k :: Covers(r, k) && k in pl.mem ==> k in now && (now[k] == pl.mem[k] || now[k] == r.payload[k - r.addr])
  {
    hide ProgramFine, RecordsFine, PatchesFine, Extends, Replay, AllRecords, IsPatch;
    var now, r := Replay(base, AllRecords(pl)[..n]), AllRecords(pl)[n];
    forall k | Covers(r, k) && k in pl.mem
      ensures k in now && (now[k] == pl.mem[k] || now[k] == r.payload[k - r.addr])
    {
      BeforePatch(pl, base, n, k);
    }
  }

  lemma HarmlessCopy(mem: Memory, now: Memory, r: Record, m: nat)
    requires HarmlessCut(mem, r, m)
    requires forall k :: Covers(r, k) && k in mem ==> k in now && (now[k] == mem[k] || now[k] == r.payload[k - r.addr])
    ensures now + Overlay(Start(r, m)) == now || now + Overlay(Start(r, m)) == now + Overlay(r)
  {
    hide Overlay;
    if forall k :: r.addr <= k < r.addr + m && Covers(r, k) ==> k in mem && mem[k] == r.payload[k - r.addr] {
      NothingNew(now, Start(r, m));
    } else {
      RestThere(now, r, m);
    }
  }

  lemma NothingNew(now: Memory, r: Record)
    requires forall k :: Covers(r, k) ==> k in now && now[k] == r.payload[k - r.addr]
    ensures now + Overlay(r) == now
  {
  }

  lemma RestThere(now: Memory, r: Record, m: nat)
    requires forall k :: r.addr + m <= k && Covers(r, k) ==> k in now && now[k] == r.payload[k - r.addr]
    ensures now + Overlay(Start(r, m)) == now + Overlay(r)
  {
  }

  lemma AllOfThem(pl: Plan, n: nat)
    requires IsPatch(pl, n)
    ensures n < |AllRecords(pl)|
  {
  }

  /** A patch cut after `m` bytes: a call of the old function exactly when the
      copied displacement bytes are the old ones, of the moved function exactly
      when the others are the new ones, and otherwise of neither. */
  lemma TornPatchCalls(pl: Plan, base: Memory, n: nat, m: nat)
    requires ProgramFine(pl) && RecordsFine(pl) && PatchesFine(pl) && EntriesFresh(pl) && Extends(base, pl.mem)
    requires IsPatch(pl, n) && 0 < m < 5 && AllRecords(pl)[n] !in AllRecords(pl)[..n]
    ensures var r, fin := AllRecords(pl)[n], Replay(base, Torn(AllRecords(pl), n, m));
      && CallsMoved(pl.sites, pl.bolted, r.addr) && |r.payload| == 5 && Has(pl.mem, r.addr, 5)
      && Decode(fin, r.addr).Inst? && Decode(fin, r.addr).size == 5 && Decode(fin, r.addr).op.Call?
      && (Decode(fin, r.addr).op.target == pl.sites[r.addr].target <==> Bytes(pl.mem, r.addr, 5)[..m] == r.payload[..m])
      && (Decode(fin, r.addr).op.target == Rename(pl, pl.sites[r.addr].target) <==> Bytes(pl.mem, r.addr, 5)[m..] == r.payload[m..])
  {
    hide ProgramFine, RecordsFine, PatchesFine, EntriesFresh, Replay, Decode, LE, Rel32Bytes, AllRecords, SiteFine, StackFuncs, Encodable;
    var rs := AllRecords(pl);
    AllOfThem(pl, n);
    var r := rs[n];
    var a := r.addr;
    PatchFacts(pl, n);
    var was, moved := Bytes(pl.mem, a, 5), Rename(pl, pl.sites[a].target);
    var fin := Replay(base, Torn(rs, n, m));
    TornPatchBytes(pl, base, n, m);
    hide Torn, Start, Extends, Rename;
    CallTarget(pl.mem, a, was);
    MixedCall(fin, a, was, r.payload, m);
    PatchedCall(a, r.payload, moved);
  }

  lemma TornPatchBytes(pl: Plan, base: Memory, n: nat, m: nat)
    requires ProgramFine(pl) && RecordsFine(pl) && PatchesFine(pl) && Extends(base, pl.mem)
    requires IsPatch(pl, n) && n < |AllRecords(pl)| && AllRecords(pl)[n] !in AllRecords(pl)[..n] && 0 < m < 5
    requires var r := AllRecords(pl)[n]; |r.payload| == 5 && Has(pl.mem, r.addr, 5)
    ensures var r, fin := AllRecords(pl)[n], Replay(base, Torn(AllRecords(pl), n, m));
      Has(fin, r.addr, 5) && Bytes(fin, r.addr, 5) == r.payload[..m] + Bytes(pl.mem, r.addr, 5)[m..]
  {
    hide ProgramFine, RecordsFine, PatchesFine, Extends, Replay, AllRecords, IsPatch;
    var rs := AllRecords(pl);
    var r, fin := rs[n], Replay(base, Torn(rs, n, m));
    ReplayOne(base, rs[..n], Start(r, m));
    forall k | r.addr <= k < r.addr + 5
      ensures k in fin && fin[k] == if k < r.addr + m then r.payload[k - r.addr] else pl.mem[k]
    {
      BeforePatch(pl, base, n, k);
    }
  }

  lemma PatchFacts(pl: Plan, n: nat)
    requires ProgramFine(pl) && PatchesFine(pl) && EntriesFresh(pl) && IsPatch(pl, n)
    ensures n < |AllRecords(pl)|
    ensures var r := AllRecords(pl)[n];
      && CallsMoved(pl.sites, pl.bolted, r.addr) && Has(pl.mem, r.addr, 5)
      && Decode(pl.mem, r.addr) == Inst(Call(pl.sites[r.addr].target), 5)
      && r.payload == [0xE8] + Rel32Bytes(Rename(pl, pl.sites[r.addr].target) - (r.addr + 5)) && |r.payload| == 5
      && 0 <= Rename(pl, pl.sites[r.addr].target) < TWO_64
      && IsLong(Rename(pl, pl.sites[r.addr].target) - (r.addr + 5))
      && Encodable(Rename(pl, pl.sites[r.addr].target) - (r.addr + 5))
  {
    hide ProgramFine, PatchesFine, EntriesFresh, Rel32Bytes, Encodable, Rename, StackFuncs, SiteFine, Decode;
    AllOfThem(pl, n);
    var r := AllRecords(pl)[n];
    assert r in pl.patchRecs && Patched(pl, r.addr);
    var p, moved := PatchAt(pl, r.addr);
    SamePatch(pl, p, r);
    PatchedSite(pl, r.addr);
    DecodedSize(pl.mem, r.addr);
  }

  lemma SamePatch(pl: Plan, p: Record, r: Record)
    requires PatchesFine(pl) && p in pl.patchRecs && r in pl.patchRecs && p.addr == r.addr
    ensures p == r
  {
  }

  // A v-table cut between cells

  /** The first two phases, some v-tables, and the start of the next one. */
  function TornTable(pl: Plan, j: nat, m: nat): Plan
    requires j < |pl.vtableRecs|
  {
    pl.(vtableRecs := pl.vtableRecs[..j] + [Start(pl.vtableRecs[j], m)], unmovedRecs := [])
  }

  lemma TornTableNarrows(pl: Plan, n: nat, j: nat, m: nat)
    requires j < |pl.vtableRecs| && n == |pl.boltedRecs| + |pl.patchRecs| + j
    ensures Narrowed(pl, TornTable(pl, j, m))
    ensures AllRecords(TornTable(pl, j, m)) == Torn(AllRecords(pl), n, m)
    ensures n < |AllRecords(pl)| && AllRecords(pl)[n] == pl.vtableRecs[j]
  {
    var cut := TornTable(pl, j, m);
    forall r | r in cut.vtableRecs
      ensures exists v :: v in pl.vtableRecs && StartOf(r, v)
    {
      if r in pl.vtableRecs[..j] {
        assert r in pl.vtableRecs && StartOf(r, r);
      } else {
        assert StartOf(r, pl.vtableRecs[j]);
      }
    }
    var front, tables := pl.boltedRecs + pl.patchRecs, pl.vtableRecs;
    assert AllRecords(pl) == front + tables + pl.unmovedRecs;
    assert AllRecords(pl)[..n] == front + tables[..j] && AllRecords(pl)[n] == tables[j];
  }

  lemma TornTableSlots(pl: Plan, j: nat, m: nat)
    requires SlotsFine(pl) && Disjoint(pl.vtableRecs) && j < |pl.vtableRecs|
    requires forall s :: UsesCell(pl, s) ==> pl.vtableRecs[j].addr + m <= s || s + 8 <= pl.vtableRecs[j].addr + m
    ensures SlotsFine(TornTable(pl, j, m))
  {
    hide Decode, LE, Disjoint, SlotFine;
    var cut := TornTable(pl, j, m);
    forall s | Has(pl.mem, s, 8) && SlotFine(pl, s) && UsesCell(pl, s)
      ensures SlotFine(cut, s)
    {
      TornTableSlot(pl, j, m, s);
    }
    forall a | a in cut.code && Decode(cut.mem, a).Inst? && Decode(cut.mem, a).op.CallSlot? && Has(cut.mem, Decode(cut.mem, a).op.slot, 8)
      ensures SlotFine(cut, Decode(cut.mem, a).op.slot)
    {
      assert UsesCell(pl, Decode(pl.mem, a).op.slot);
    }
  }

  lemma TornTableSlot(pl: Plan, j: nat, m: nat, s: int)
    requires Has(pl.mem, s, 8) && SlotFine(pl, s) && Disjoint(pl.vtableRecs) && j < |pl.vtableRecs|
    requires pl.vtableRecs[j].addr + m <= s || s + 8 <= pl.vtableRecs[j].addr + m
    ensures SlotFine(TornTable(pl, j, m), s)
  {
    hide Decode, LE, Disjoint;
    var cut, v, t := TornTable(pl, j, m), pl.vtableRecs[j], Start(pl.vtableRecs[j], m);
    assert forall r :: r in cut.vtableRecs <==> r in pl.vtableRecs[..j] || r == t;
    assert forall r :: r in pl.vtableRecs[..j] ==> r in pl.vtableRecs;
    assert t in cut.vtableRecs && v in pl.vtableRecs;
    if r :| r in pl.vtableRecs && CoversCell(r, s) {
      assert Covers(r, s);
      if r in pl.vtableRecs[..j] {
        assert r in cut.vtableRecs;
      } else {
        OthersMissCell(pl.vtableRecs, j, r, s);
        if r == v && s + 8 <= v.addr + m {
          assert CoversCell(t, s);
        } else {
          TableMissed(pl.vtableRecs, j, r, s, m);
        }
      }
    } else {
      assert forall k :: Covers(t, k) ==> Covers(v, k);
    }
  }

  /** The part of table `j` that was copied misses the cell. */
  lemma TableMissed(rs: seq<Record>, j: nat, r: Record, s: int, m: nat)
    requires Disjoint(rs) && j < |rs| && r in rs && r !in rs[..j] && CoversCell(r, s)
    requires rs[j].addr + m <= s || r != rs[j]
    ensures forall k :: s <= k < s + 8 ==> !Covers(Start(rs[j], m), k)
  {
    if r != rs[j] {
      var i :| 0 <= i < |rs| && rs[i] == r;
      assert j < i ==> Apart(rs[j], rs[i]);
    }
  }
}
