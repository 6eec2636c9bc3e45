/** From the disassembly to the truth of the call-site table: if objdump prints
    the code of the process, every extracted site is a direct call with the
    target and the successor the processor sees. */
module Disassembly {
  import opened Words
  import opened Hex
  import opened Code
  import opened CallSites
  import opened CallStack
  import opened Patching
  import opened Replacement

  /** The line prints the call at `addr` and its target; `next`, if there is
      one, starts with the address after it. */
  predicate PrintsCall(mem: Memory, words: Line, next: Line, addr: nat, mnemonic: string, symbol: string) {
    && addr + 5 < TWO_32
    && Has(mem, addr, 5) && Decode(mem, addr).Inst? && Decode(mem, addr).op.Call? && mem[addr] == 0xE8
    && 0 <= Decode(mem, addr).op.target < TWO_32
    && (mnemonic == "call" || mnemonic == "callq") && symbol != []
    && words == PrintedCall(addr, Bytes(mem, addr, 5), mnemonic, Decode(mem, addr).op.target, symbol)
    && (next == [] || next[0] == Printed(addr + 5) + ":")
  }

  /** Every line that looks like a direct call with a symbol is one, of an
      instruction of `f`. */
  ghost predicate FaithfulLine(mem: Memory, f: Func, words: Line, next: Line) {
    LooksLikeCall(words) ==>
      exists addr: nat, mnemonic, symbol :: PrintsCall(mem, words, next, addr, mnemonic, symbol)
        && f.start <= addr && addr + 5 <= f.start + f.size
  }

  ghost predicate FaithfulListing(mem: Memory, f: Func, lines: seq<Line>) {
    forall k :: 0 <= k < |lines| - 1 ==> FaithfulLine(mem, f, lines[k], lines[k + 1])
  }

  /** The site records what the processor does at its address. */
  predicate Truthful(mem: Memory, s: CallSite) {
    && Has(mem, s.addr, 5) && s.code == Bytes(mem, s.addr, 5)
    && Decode(mem, s.addr) == Inst(Call(s.target), 5)
    && s.nextAddr == s.addr + 5
  }

  predicate SiteOf(f: Func, s: CallSite) {
    s.belongedFunc == f.start && f.start <= s.addr && s.addr + 5 <= f.start + f.size
  }

  /** The table's target, computed modulo 2^32, is the decoded one. */
  lemma TargetDecoded(mem: Memory, addr: nat)
    requires addr + 5 < TWO_32 && Has(mem, addr, 5) && mem[addr] == 0xE8
    ensures Decode(mem, addr).Inst? && Decode(mem, addr).size == 5 && Decode(mem, addr).op.Call?
    ensures Decode(mem, addr).op.target < TWO_32 ==>
      Decode(mem, addr).op.target == U32(LE(Bytes(mem, addr, 5)[1..]) + (addr + 5))
  {
    hide LE;
    assert Bytes(mem, addr, 5)[1..] == Bytes(mem, addr + 1, 4);
    var v := LE(Bytes(mem, addr + 1, 4));
    ToLEOfLE(Bytes(mem, addr + 1, 4));
    Pow256Values();
    TargetInRange(v, addr + 5);
  }

  lemma TargetInRange(v: nat, next: nat)
    requires v < TWO_32 && next < TWO_32
    ensures U64(next + S32(v)) < TWO_32 ==> U64(next + S32(v)) == U32(v + next)
  {
    TargetIsArchitectural(v, next);
    var t := next + S32(v);
    if t >= 0 {
      SmallU64(t);
    } else {
      U64Is(t, -1, t + TWO_64);
    }
  }

  lemma FaithfulSite(mem: Memory, f: Func, words: Line, next: Line)
    requires NonEmptyWords(words) && NonEmptyWords(next) && FaithfulLine(mem, f, words, next)
    requires LineMeaning(words, next, f.start).Found?
    ensures Truthful(mem, LineMeaning(words, next, f.start).site) && SiteOf(f, LineMeaning(words, next, f.start).site)
  {
    hide Decode, LE, Printed, PrintedCall, ByteTokens, JoinedBackward, Value;
    var addr: nat, mnemonic, symbol :| PrintsCall(mem, words, next, addr, mnemonic, symbol)
      && f.start <= addr && addr + 5 <= f.start + f.size;
    PrintedWords(addr, Bytes(mem, addr, 5), mnemonic, Decode(mem, addr).op.target, symbol);
    DecodedCall(addr, Bytes(mem, addr, 5), mnemonic, Decode(mem, addr).op.target, symbol, next, f.start);
    TargetDecoded(mem, addr);
  }

  lemma {:induction false} FaithfulLines(mem: Memory, f: Func, lines: seq<Line>)
    requires Wordy(lines) && FaithfulListing(mem, f, lines)
    requires SitesOfLines(f.start, lines).Collected?
    ensures forall s :: s in SitesOfLines(f.start, lines).sites ==> Truthful(mem, s) && SiteOf(f, s)
    decreases |lines|
  {
    hide LineMeaning, Truthful, SiteOf, FaithfulLine, NonEmptyWords;
    if |lines| > 1 {
      var rest := lines[1..];
      assert FaithfulListing(mem, f, rest) by {
        forall k | 0 <= k < |rest| - 1
          ensures FaithfulLine(mem, f, rest[k], rest[k + 1])
        {
          assert FaithfulLine(mem, f, lines[k + 1], lines[k + 2]);
        }
      }
      assert FaithfulLine(mem, f, lines[0], lines[1]);
      FaithfulLines(mem, f, rest);
      if LineMeaning(lines[0], lines[1], f.start).Found? {
        FaithfulSite(mem, f, lines[0], lines[1]);
      }
    }
  }

  /** Every site of a faithful disassembly is truthful and lies in one of the
      functions. */
  lemma {:induction false} FaithfulSites(mem: Memory, funcs: seq<Func>, disasm: CallSites.Disassembly)
    requires Listed(funcs, disasm) && forall f :: f in funcs ==> FaithfulListing(mem, f, disasm(f))
    requires SitesOfFuncs(funcs, disasm).Collected?
    ensures forall s :: s in SitesOfFuncs(funcs, disasm).sites ==>
      Truthful(mem, s) && exists f :: f in funcs && SiteOf(f, s)
    decreases |funcs|
  {
    hide Truthful, SiteOf, FaithfulListing, SitesOfLines;
    if funcs != [] {
      var f, rest := funcs[0], funcs[1..];
      assert forall g :: g in rest ==> g in funcs;
      FaithfulSites(mem, rest, disasm);
      FaithfulLines(mem, f, disasm(f));
    }
  }

  /** A table tabulating faithful sites gives the replacement what it needs of
      every patch: sites are calls of their function with their real target. */
  lemma ExtractedSitesFine(pl: Plan, funcs: seq<Func>, disasm: CallSites.Disassembly)
    requires Listed(funcs, disasm) && forall f :: f in funcs ==> FaithfulListing(pl.mem, f, disasm(f))
    requires SitesOfFuncs(funcs, disasm).Collected?
    requires Tabulates(pl.sites, SitesOfFuncs(funcs, disasm).sites)
    requires forall f :: f in funcs && f.start in pl.funcs ==> f.size <= pl.funcs[f.start].originalSize
    requires forall a :: NeedsPatch(pl.sites, pl.bolted, StackFuncs(pl), a) ==>
      a in pl.code && Encodable(Distance(pl.sites, pl.bolted, a))
    ensures forall a :: NeedsPatch(pl.sites, pl.bolted, StackFuncs(pl), a) ==> SiteFine(pl, a)
  {
    hide Decode, SitesOfFuncs, FaithfulListing, Encodable, OnStack;
    FaithfulSites(pl.mem, funcs, disasm);
    forall a | NeedsPatch(pl.sites, pl.bolted, StackFuncs(pl), a)
      ensures SiteFine(pl, a)
    {
      var s := pl.sites[a];
      assert s in SitesOfFuncs(funcs, disasm).sites && Truthful(pl.mem, s);
      var f :| f in funcs && SiteOf(f, s);
      assert s.belongedFunc in pl.funcs;
    }
  }

  /** The two readings of nm differ by weak symbols: every function of the stack
      map is scanned for call sites, and a scanned function is missing from the
      stack map exactly when no line with the letter T or t declares its address;
      a line with W or w does then. */
  lemma WeakFunctionsAreInvisible(lines: seq<Line>, m: Funcs, a: int)
    requires forall b, k :: FirstToDeclare(lines, k, b) ==> b in m && m[b] == InfoOf(lines[k])
    requires forall b :: b in m ==> exists k :: FirstToDeclare(lines, k, b)
    ensures a in m ==> exists f :: f in ScannedFuncs(lines) && f.start == a && f.size == m[a].originalSize
    ensures a in m <==> exists k :: 0 <= k < |lines| && |lines[k]| > 3 && (lines[k][2] == "T" || lines[k][2] == "t")
                                    && S64(Value(lines[k][0])) == a
    ensures a !in m ==> forall f :: f in ScannedFuncs(lines) && f.start == a ==>
      exists k :: 0 <= k < |lines| && |lines[k]| > 3 && (lines[k][2] == "W" || lines[k][2] == "w") && S64(Value(lines[k][0])) == a
    ensures forall k :: 0 <= k < |lines| && |lines[k]| > 3 && (lines[k][2] == "W" || lines[k][2] == "w") ==>
      Func(S64(Value(lines[k][0])), S64(Value(lines[k][1]))) in ScannedFuncs(lines)
  {
    hide S64, Value;
    ScannedAre(lines);
    if a in m {
      var k :| FirstToDeclare(lines, k, a);
      assert SymbolOf(lines[k]) in ScannedFuncs(lines);
    }
    if k :| 0 <= k < |lines| && Declares(lines[k], a) {
      var first := EarliestDeclaration(lines, k, a);
    }
  }

  lemma {:induction false} ScannedAre(lines: seq<Line>)
    ensures forall k :: 0 <= k < |lines| && IsScannedSymbol(lines[k]) ==> SymbolOf(lines[k]) in ScannedFuncs(lines)
    ensures forall f :: f in ScannedFuncs(lines) ==> exists k :: 0 <= k < |lines| && IsScannedSymbol(lines[k]) && SymbolOf(lines[k]) == f
    decreases |lines|
  {
    hide S64, Value, IsScannedSymbol, SymbolOf;
    if lines != [] {
      var init := lines[..|lines| - 1];
      ScannedAre(init);
      forall k | 0 <= k < |lines| && IsScannedSymbol(lines[k])
        ensures SymbolOf(lines[k]) in ScannedFuncs(lines)
      {
        assert k < |init| ==> init[k] == lines[k];
      }
      forall f | f in ScannedFuncs(lines)
        ensures exists k :: 0 <= k < |lines| && IsScannedSymbol(lines[k]) && SymbolOf(lines[k]) == f
      {
        if f in ScannedFuncs(init) {
          var k :| 0 <= k < |init| && IsScannedSymbol(init[k]) && SymbolOf(init[k]) == f;
          assert lines[k] == init[k];
        } else {
          assert IsScannedSymbol(lines[|lines| - 1]) && SymbolOf(lines[|lines| - 1]) == f;
        }
      }
    }
  }

  lemma {:induction false} EarliestDeclaration(lines: seq<Line>, k: nat, a: int) returns (first: nat)
    requires k < |lines| && Declares(lines[k], a)
    ensures FirstToDeclare(lines, first, a)
  {
    if j: nat :| j < k && Declares(lines[j], a) {
      first := EarliestDeclaration(lines, j, a);
    } else {
      first := k;
    }
  }
}
