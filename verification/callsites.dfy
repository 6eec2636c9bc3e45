/** Call-site extraction (src/extract_call_sites.cpp): decoding of objdump's
    call lines, the 16-way split with its merge, and the inverted index. */
module CallSites {
  import opened Words
  import opened Hex
  import opened Rel32

  datatype CallSite = CallSite(code: seq<Byte>, addr: int, nextAddr: int, belongedFunc: int, target: int)

  /** The blank-separated words of one line of objdump. */
  type Line = seq<string>

  predicate NonEmptyWords(l: Line) { forall k :: 0 <= k < |l| ==> l[k] != [] }

  /** Ways a line ends the program: exit(-1) on a sixth byte token, an exception
      from `substr` on a short symbol, an out-of-bounds read when a call line
      has no byte token. */
  datatype Trouble = TooManyBytes | ShortSymbol | NoBytes

  datatype LineResult = Skip | Found(site: CallSite) | Failed(trouble: Trouble)

  predicate LooksLikeCall(words: Line) {
    |words| > 8 && (words[6] == "call" || words[6] == "callq")
  }

  /** The comparison with "@plt>": the last five characters, but one fewer when
      the word is no longer than that. */
  predicate IsPlt(symbol: string)
    requires |symbol| >= 5
  {
    (if |symbol| == 5 then symbol[..4] else symbol[|symbol| - 5..]) == "@plt>"
  }

  function ByteTokens(words: Line): (ts: seq<string>)
    ensures forall k :: 0 <= k < |ts| ==> IsByteToken(ts[k])
  {
    if words == [] then []
    else
      var rest := ByteTokens(words[..|words| - 1]);
      if IsByteToken(words[|words| - 1]) then rest + [words[|words| - 1]] else rest
  }

  function TokenValue(w: string): Byte
    requires IsByteToken(w)
  {
    PairValue(w);
    Value(w)
  }

  function TokenValues(ts: seq<string>): (bs: seq<Byte>)
    requires forall k :: 0 <= k < |ts| ==> IsByteToken(ts[k])
    ensures |bs| == |ts|
  {
    seq(|ts|, i requires 0 <= i < |ts| => TokenValue(ts[i]))
  }

  /** An address printed with a trailing colon. */
  function AddressOf(word: string): int
    requires word != []
  {
    S64(Value(word[..|word| - 1]))
  }

  /** What a line of the disassembly of `func` contributes. */
  function LineMeaning(words: Line, next: Line, func: int): LineResult
    requires NonEmptyWords(words) && NonEmptyWords(next)
  {
    if !LooksLikeCall(words) then Skip
    else if |words[8]| < 5 then Failed(ShortSymbol)
    else if IsPlt(words[8]) || next == [] then Skip
    else
      var ts := ByteTokens(words);
      if |ts| > 5 then Failed(TooManyBytes)
      else if ts == [] then Failed(NoBytes)
      else
        var after := AddressOf(next[0]);
        Found(CallSite(TokenValues(ts), AddressOf(words[0]), after, func,
                       U32(Value(JoinedBackward(ts[1..])) + after)))
  }

  /** Lines that are no direct call contribute nothing. */
  lemma OtherLines(words: Line, next: Line, func: int)
    requires NonEmptyWords(words) && NonEmptyWords(next)
    requires |words| <= 8 || (words[6] != "call" && words[6] != "callq")
    ensures LineMeaning(words, next, func) == Skip
  {
  }

  /** A call line without a byte token ends the program. */
  lemma NoByteTokens(words: Line, next: Line, func: int)
    requires NonEmptyWords(words) && NonEmptyWords(next) && next != []
    requires |words| > 8 && (words[6] == "call" || words[6] == "callq")
    requires |words[8]| == 5 || (|words[8]| > 5 && words[8][|words[8]| - 5..] != "@plt>")
    requires forall k :: 0 <= k < |words| ==> |words[k]| != 2
    ensures LineMeaning(words, next, func) == Failed(NoBytes)
  {
    NoTokens(words);
  }

  lemma U32OfS64(x: int, y: int)
    ensures U32(S64(S64(x) + y)) == U32(x + y)
  {
    var i := if S64(x) == U64(x) then x / TWO_64 else x / TWO_64 + 1;
    assert S64(x) == x - TWO_64 * i;
    var z := S64(x) + y;
    var j := if S64(z) == U64(z) then z / TWO_64 else z / TWO_64 + 1;
    assert S64(z) == z - TWO_64 * j;
    U32Shift(S64(z), x + y, TWO_32 * (i + j));
  }

  lemma U32Shift(x: int, y: int, k: int)
    requires x == y - TWO_32 * k
    ensures U32(x) == U32(y)
  {
    assert y == TWO_32 * (x / TWO_32 + k) + x % TWO_32;
    RemainderIs(y, x / TWO_32 + k, x % TWO_32);
  }

  /** The byte tokens of a line and the bytes they denote; a sixth one is refused. */
  method CollectBytes(words: Line) returns (ok: bool, binaryStrs: seq<string>, code: seq<Byte>)
    ensures ok <==> |ByteTokens(words)| <= 5
    ensures ok ==> binaryStrs == ByteTokens(words) && code == TokenValues(binaryStrs)
  {
    binaryStrs, code := [], [];
    var idx := 0;
    var j := 0;
    while j < |words|
      invariant 0 <= j <= |words|
      invariant binaryStrs == ByteTokens(words[..j]) && |binaryStrs| == idx <= 5
      invariant code == TokenValues(binaryStrs)
    {
      assert words[..j + 1][..j] == words[..j];
      TokensGrow(words, j);
      var hex := IsHex(words[j]);
      if |words[j]| == 2 && hex {
        if idx == 5 {
          TokensGrow(words, j + 1);
          return false, [], [];
        }
        binaryStrs := binaryStrs + [words[j]];
        var b := ConvertStr2Uint8(words[j]);
        code := code + [b];
        idx := idx + 1;
      }
      j := j + 1;
    }
    assert words[..j] == words;
    return true, binaryStrs, code;
  }

  lemma {:induction false} TokensGrow(words: Line, j: nat)
    requires j <= |words|
    ensures |ByteTokens(words[..j])| <= |ByteTokens(words)|
    decreases |words|
  {
    if j < |words| {
      assert words[..|words| - 1][..j] == words[..j];
      TokensGrow(words[..|words| - 1], j);
    } else {
      assert words[..j] == words;
    }
  }

  /** The byte tokens of the displacement, last one first. */
  method JoinBackward(binaryStrs: seq<string>) returns (realOffset: string)
    requires binaryStrs != []
    ensures realOffset == JoinedBackward(binaryStrs[1..])
  {
    realOffset := "";
    var j := |binaryStrs| - 1;
    while j > 0
      invariant 0 <= j < |binaryStrs|
      invariant realOffset == JoinedBackward(binaryStrs[j + 1..])
    {
      assert binaryStrs[j..][1..] == binaryStrs[j + 1..];
      realOffset := realOffset + binaryStrs[j];
      j := j - 1;
    }
  }

  /** The body of the line loop of thread_function. */
  method DecodeLine(words: Line, next: Line, func: int) returns (r: LineResult)
    requires NonEmptyWords(words) && NonEmptyWords(next)
    ensures r == LineMeaning(words, next, func)
  {
    hide Value, S64, U32, ByteTokens, TokenValues, JoinedBackward;
    if !(|words| > 8 && (words[6] == "call" || words[6] == "callq")) {
      return Skip;
    }
    var symbol := words[8];
    if |symbol| < 5 {
      return Failed(ShortSymbol);
    }
    var count := if |symbol| - 1 < 5 then |symbol| - 1 else 5;
    if symbol[|symbol| - 5..|symbol| - 5 + count] == "@plt>" {
      return Skip;
    }
    var addr := ConvertStr2Long(words[0][..|words[0]| - 1]);
    if |next| == 0 {
      return Skip;
    }
    var nextAddr := ConvertStr2Long(next[0][..|next[0]| - 1]);
    var ok, binaryStrs, code := CollectBytes(words);
    if !ok {
      return Failed(TooManyBytes);
    }
    if |binaryStrs| == 0 {
      return Failed(NoBytes);
    }
    var realOffset := JoinBackward(binaryStrs);
    var offset := ConvertStr2Long(realOffset);
    U32OfS64(Value(realOffset), nextAddr);
    return Found(CallSite(code, addr, nextAddr, func, U32(S64(offset + nextAddr))));
  }

  // One worker

  datatype Collected = Collected(sites: seq<CallSite>) | Broken

  predicate Wordy(lines: seq<Line>) { forall k :: 0 <= k < |lines| ==> NonEmptyWords(lines[k]) }

  predicate GoodListing(lines: seq<Line>) {
    lines != [] && Wordy(lines)
  }

  /** The sites of one function in listing order; the last line is only looked
      at as the successor of the one before it. */
  function SitesOfLines(func: int, lines: seq<Line>): Collected
    requires Wordy(lines)
  {
    if |lines| <= 1 then Collected([])
    else
      match LineMeaning(lines[0], lines[1], func)
      case Skip => SitesOfLines(func, lines[1..])
      case Failed(_) => Broken
      case Found(s) =>
        var rest := SitesOfLines(func, lines[1..]);
        if rest.Broken? then Broken else Collected([s] + rest.sites)
  }

  /** A function symbol: start address and size. */
  datatype Func = Func(start: int, size: int)

  /** objdump's output for a function, as an input. */
  type Disassembly = Func -> seq<Line>

  ghost predicate Listed(funcs: seq<Func>, disasm: Disassembly) {
    forall f :: f in funcs ==> GoodListing(disasm(f))
  }

  function SitesOfFuncs(funcs: seq<Func>, disasm: Disassembly): Collected
    requires Listed(funcs, disasm)
  {
    if funcs == [] then Collected([])
    else
      var first := SitesOfLines(funcs[0].start, disasm(funcs[0]));
      var rest := SitesOfFuncs(funcs[1..], disasm);
      if first.Broken? || rest.Broken? then Broken else Collected(first.sites + rest.sites)
  }

  /** The extraction of a function fails exactly when some line fails, and the
      sites are those of all its lines but the last, which has no successor. */
  lemma {:induction false} LinesExactly(func: int, lines: seq<Line>)
    requires Wordy(lines)
    ensures SitesOfLines(func, lines).Collected? <==>
      forall k :: 0 <= k < |lines| - 1 ==> !LineMeaning(lines[k], lines[k + 1], func).Failed?
    ensures SitesOfLines(func, lines).Collected? ==> forall s :: s in SitesOfLines(func, lines).sites <==>
      exists k :: 0 <= k < |lines| - 1 && LineMeaning(lines[k], lines[k + 1], func) == Found(s)
    decreases |lines|
  {
    hide LineMeaning, NonEmptyWords;
    if |lines| > 1 {
      var rest := lines[1..];
      LinesExactly(func, rest);
      LinesShift(func, lines);
      var first := LineMeaning(lines[0], lines[1], func);
      if SitesOfLines(func, lines).Collected? {
        forall s
          ensures s in SitesOfLines(func, lines).sites <==>
            exists k :: 0 <= k < |lines| - 1 && LineMeaning(lines[k], lines[k + 1], func) == Found(s)
        {
          assert first == Found(s) || s in SitesOfLines(func, rest).sites <==> s in SitesOfLines(func, lines).sites;
        }
      }
    }
  }

  /** What holds of the lines of a listing, for its first line and the rest. */
  lemma LinesShift(func: int, lines: seq<Line>)
    requires Wordy(lines) && |lines| > 1
    ensures (forall k :: 0 <= k < |lines| - 1 ==> !LineMeaning(lines[k], lines[k + 1], func).Failed?) <==>
      && !LineMeaning(lines[0], lines[1], func).Failed?
      && forall k :: 0 <= k < |lines[1..]| - 1 ==> !LineMeaning(lines[1..][k], lines[1..][k + 1], func).Failed?
    ensures forall s :: (exists k :: 0 <= k < |lines| - 1 && LineMeaning(lines[k], lines[k + 1], func) == Found(s)) <==>
      || LineMeaning(lines[0], lines[1], func) == Found(s)
      || exists k :: 0 <= k < |lines[1..]| - 1 && LineMeaning(lines[1..][k], lines[1..][k + 1], func) == Found(s)
  {
    hide LineMeaning, NonEmptyWords;
    var rest := lines[1..];
    assert forall k :: 0 <= k < |rest| ==> rest[k] == lines[k + 1];
    forall k | 0 <= k < |lines| - 1
      ensures LineMeaning(lines[k], lines[k + 1], func) ==
        if k == 0 then LineMeaning(lines[0], lines[1], func) else LineMeaning(rest[k - 1], rest[k], func)
    {
    }
    forall k | 0 <= k < |rest| - 1
      ensures LineMeaning(rest[k], rest[k + 1], func) == LineMeaning(lines[k + 1], lines[k + 2], func)
    {
    }
  }

  lemma NextLine(func: int, lines: seq<Line>)
    requires Wordy(lines) && |lines| > 1
    ensures var first, rest := LineMeaning(lines[0], lines[1], func), SitesOfLines(func, lines[1..]);
      SitesOfLines(func, lines) ==
        if first.Failed? || (first.Found? && rest.Broken?) then Broken
        else if first.Skip? then rest else Collected([first.site] + rest.sites)
  {
    hide LineMeaning;
  }

  lemma OneLine(func: int, lines: seq<Line>)
    requires Wordy(lines) && |lines| <= 1
    ensures SitesOfLines(func, lines) == Collected([])
  {
  }

  /** Sites come in the order of the lines. */
  lemma {:induction false} LinesInOrder(func: int, lines: seq<Line>, k: nat)
    requires Wordy(lines) && k < |lines| && SitesOfLines(func, lines).Collected?
    ensures Wordy(lines[..k + 1]) && Wordy(lines[k..])
    ensures SitesOfLines(func, lines[..k + 1]).Collected? && SitesOfLines(func, lines[k..]).Collected?
    ensures SitesOfLines(func, lines).sites == SitesOfLines(func, lines[..k + 1]).sites + SitesOfLines(func, lines[k..]).sites
    decreases |lines|
  {
    hide LineMeaning, NonEmptyWords, SitesOfLines;
    if k == 0 {
      assert lines[0..] == lines;
      OneLine(func, lines[..1]);
    } else {
      var rest, front := lines[1..], lines[..k + 1];
      assert front[1..] == rest[..k] && lines[k..] == rest[k - 1..];
      NextLine(func, lines);
      NextLine(func, front);
      LinesInOrder(func, rest, k - 1);
      var first, a, b := LineMeaning(lines[0], lines[1], func), SitesOfLines(func, rest[..k]).sites, SitesOfLines(func, lines[k..]).sites;
      if first.Found? {
        assert [first.site] + (a + b) == [first.site] + a + b;
      }
    }
  }

  /** The same for all functions: the sites are those of the lines, no more. */
  lemma {:induction false} FuncsExactly(funcs: seq<Func>, disasm: Disassembly)
    requires Listed(funcs, disasm)
    ensures SitesOfFuncs(funcs, disasm).Collected? <==>
      forall f :: f in funcs ==> SitesOfLines(f.start, disasm(f)).Collected?
    ensures SitesOfFuncs(funcs, disasm).Collected? ==> forall s :: s in SitesOfFuncs(funcs, disasm).sites <==>
      exists f :: f in funcs && s in SitesOfLines(f.start, disasm(f)).sites
    decreases |funcs|
  {
    hide SitesOfLines;
    if funcs != [] {
      assert forall f :: f in funcs <==> f == funcs[0] || f in funcs[1..];
      FuncsExactly(funcs[1..], disasm);
    }
  }

  type Table = map<int, CallSite>

  /** Storing sites one after the other: the last one stored for an address stays. */
  function Absorb(m: Table, sites: seq<CallSite>): Table
    decreases |sites|
  {
    if sites == [] then m else Absorb(m[sites[0].addr := sites[0]], sites[1..])
  }

  /** The last site stored for an address is the one that stays. */
  lemma {:induction false} LastSiteStays(m: Table, sites: seq<CallSite>, k: nat)
    requires k < |sites| && forall j :: k < j < |sites| ==> sites[j].addr != sites[k].addr
    ensures sites[k].addr in Absorb(m, sites) && Absorb(m, sites)[sites[k].addr] == sites[k]
    decreases |sites|
  {
    var m', rest := m[sites[0].addr := sites[0]], sites[1..];
    if k == 0 {
      OthersLeave(m', rest, sites[0].addr);
    } else {
      LastSiteStays(m', rest, k - 1);
    }
  }

  lemma {:induction false} OthersLeave(m: Table, sites: seq<CallSite>, a: int)
    requires a in m && forall j :: 0 <= j < |sites| ==> sites[j].addr != a
    ensures a in Absorb(m, sites) && Absorb(m, sites)[a] == m[a]
    decreases |sites|
  {
    if sites != [] {
      OthersLeave(m[sites[0].addr := sites[0]], sites[1..], a);
    }
  }

  datatype Stored = Died | Kept(table: Table)

  function Store(m: Table, c: Collected): Stored {
    if c.Broken? then Died else Kept(Absorb(m, c.sites))
  }

  lemma {:induction false} AbsorbAppend(m: Table, s: seq<CallSite>, t: seq<CallSite>)
    ensures Absorb(m, s + t) == Absorb(Absorb(m, s), t)
    decreases |s|
  {
    if s == [] {
      assert s + t == t;
    } else {
      AbsorbAppend(m[s[0].addr := s[0]], s[1..], t);
      assert (s + t)[1..] == s[1..] + t && (s + t)[0] == s[0];
    }
  }

  /** One line after the other, stored into the worker's map. */
  method ScanFunction(func: int, lines: seq<Line>, before: Table) returns (r: Stored)
    requires GoodListing(lines)
    ensures r == Store(before, SitesOfLines(func, lines))
  {
    var sites := before;
    var k := 0;
    assert lines[0..] == lines;
    while k < |lines| - 1
      invariant 0 <= k <= |lines| - 1
      invariant Wordy(lines[k..])
      invariant Store(before, SitesOfLines(func, lines)) == Store(sites, SitesOfLines(func, lines[k..]))
    {
      assert lines[k..][0] == lines[k] && lines[k..][1] == lines[k + 1] && lines[k..][1..] == lines[k + 1..];
      assert Wordy(lines[k + 1..]);
      var line := DecodeLine(lines[k], lines[k + 1], func);
      match line {
        case Skip =>
        case Failed(_) => return Died;
        case Found(site) =>
          StoreFirst(sites, site, SitesOfLines(func, lines[k + 1..]));
          sites := sites[site.addr := site];
      }
      k := k + 1;
    }
    return Kept(sites);
  }

  lemma StoreFirst(m: Table, s: CallSite, c: Collected)
    ensures c.Collected? ==> Absorb(m, [s] + c.sites) == Absorb(m[s.addr := s], c.sites)
  {
    if c.Collected? {
      assert ([s] + c.sites)[1..] == c.sites;
    }
  }

  /** thread_function: one worker's map. */
  method ThreadFunction(funcs: seq<Func>, disasm: Disassembly) returns (r: Stored)
    requires Listed(funcs, disasm)
    ensures r == Store(map[], SitesOfFuncs(funcs, disasm))
  {
    var sites: Table := map[];
    var i := 0;
    assert funcs[0..] == funcs;
    while i < |funcs|
      invariant 0 <= i <= |funcs|
      invariant Listed(funcs[i..], disasm)
      invariant Store(map[], SitesOfFuncs(funcs, disasm)) == Store(sites, SitesOfFuncs(funcs[i..], disasm))
    {
      assert funcs[i] in funcs && funcs[i..][0] == funcs[i] && funcs[i..][1..] == funcs[i + 1..];
      assert Listed(funcs[i + 1..], disasm);
      var first := ScanFunction(funcs[i].start, disasm(funcs[i]), sites);
      if first.Died? {
        return Died;
      }
      ghost var here, rest := SitesOfLines(funcs[i].start, disasm(funcs[i])), SitesOfFuncs(funcs[i + 1..], disasm);
      if rest.Collected? {
        AbsorbAppend(sites, here.sites, rest.sites);
      }
      sites := first.table;
      i := i + 1;
    }
    return Kept(sites);
  }

  /** A line of nm for a function the extraction scans; weak ones count. */
  predicate IsScannedSymbol(words: Line) {
    |words| > 3 && (words[2] == "T" || words[2] == "t" || words[2] == "W" || words[2] == "w")
  }

  function SymbolOf(words: Line): Func
    requires IsScannedSymbol(words)
  {
    Func(S64(Value(words[0])), S64(Value(words[1])))
  }

  /** The symbols that are scanned, by nm's letter, and what is taken of a line. */
  lemma ScannedSymbols(addr: string, size: string, letter: string, name: Line)
    requires name != []
    ensures IsScannedSymbol([addr, size, letter] + name) <==> letter == "T" || letter == "t" || letter == "W" || letter == "w"
    ensures IsScannedSymbol([addr, size, letter] + name) ==>
      SymbolOf([addr, size, letter] + name) == Func(S64(Value(addr)), S64(Value(size)))
  {
    hide Value, S64;
    var words := [addr, size, letter] + name;
    assert words[0] == addr && words[1] == size && words[2] == letter;
  }

  /** The functions of a symbol listing, in its order. */
  function ScannedFuncs(lines: seq<Line>): seq<Func> {
    if lines == [] then []
    else
      var init, last := ScannedFuncs(lines[..|lines| - 1]), lines[|lines| - 1];
      if IsScannedSymbol(last) then init + [SymbolOf(last)] else init
  }

  method ListFunctions(lines: seq<Line>) returns (funcs: seq<Func>)
    ensures forall k :: 0 <= k < |lines| && IsScannedSymbol(lines[k]) ==> SymbolOf(lines[k]) in funcs
    ensures forall f :: f in funcs ==> exists k :: 0 <= k < |lines| && IsScannedSymbol(lines[k]) && SymbolOf(lines[k]) == f
    ensures funcs == ScannedFuncs(lines)
  {
    hide Value, S64;
    funcs := [];
    var i := 0;
    while i < |lines|
      invariant 0 <= i <= |lines| && funcs == ScannedFuncs(lines[..i])
      invariant forall k :: 0 <= k < i && IsScannedSymbol(lines[k]) ==> SymbolOf(lines[k]) in funcs
      invariant forall f :: f in funcs ==> exists k :: 0 <= k < i && IsScannedSymbol(lines[k]) && SymbolOf(lines[k]) == f
    {
      var words := lines[i];
      assert lines[..i + 1][..i] == lines[..i];
      if |words| > 3 {
        if words[2] == "T" || words[2] == "t" || words[2] == "W" || words[2] == "w" {
          var start := ConvertStr2Long(words[0]);
          var len := ConvertStr2Long(words[1]);
          funcs := funcs + [Func(start, len)];
          assert funcs[|funcs| - 1] == SymbolOf(words);
        }
      }
      i := i + 1;
    }
    assert lines[..i] == lines;
  }

  // Sixteen workers

  const WORKERS: int := 16

  function Concat(parts: seq<seq<Func>>): seq<Func> {
    if parts == [] then [] else Concat(parts[..|parts| - 1]) + parts[|parts| - 1]
  }

  /** The share of worker `i` of sixteen; the last one takes what is left over. */
  function Slice(funcs: seq<Func>, i: nat): seq<Func>
    requires i < 16
  {
    SliceBounds(i, |funcs| / 16, |funcs|);
    funcs[i * (|funcs| / 16)..if i < 15 then i * (|funcs| / 16) + |funcs| / 16 else |funcs|]
  }

  lemma SliceIs(funcs: seq<Func>, i: nat, size: nat)
    requires i < 16 && size == |funcs| / 16 && 0 <= i * size <= |funcs| && (i < 15 ==> i * size + size <= |funcs|)
    ensures Slice(funcs, i) == if i < 15 then funcs[i * size..i * size + size] else funcs[i * size..]
  {
  }

  /** Fifteen slices of equal size and a last one with the rest. */
  method Partition(funcs: seq<Func>) returns (parts: seq<seq<Func>>)
    ensures |parts| == 16 && Concat(parts) == funcs
    ensures forall i :: 0 <= i < 16 ==> parts[i] == Slice(funcs, i)
    ensures forall i :: 0 <= i < WORKERS - 1 ==> |parts[i]| == |funcs| / WORKERS
    ensures |parts[WORKERS - 1]| == |funcs| / WORKERS + |funcs| % WORKERS
  {
    hide Concat, Slice;
    var size := |funcs| / WORKERS;
    parts := [];
    var i := 0;
    ghost var at := 0;
    ConcatNone();
    while i < WORKERS
      invariant 0 <= i <= WORKERS && |parts| == i
      invariant i < WORKERS ==> at == i * size && Concat(parts) == funcs[..at]
      invariant i == WORKERS ==> Concat(parts) == funcs && |parts[WORKERS - 1]| == |funcs| / WORKERS + |funcs| % WORKERS
      invariant forall k :: 0 <= k < i && k < WORKERS - 1 ==> |parts[k]| == size
      invariant forall k :: 0 <= k < i ==> parts[k] == Slice(funcs, k)
    {
      SliceBounds(i, size, |funcs|);
      SliceIs(funcs, i, size);
      if i != WORKERS - 1 {
        ConcatMore(parts, funcs[i * size..(i + 1) * size]);
        parts := parts + [funcs[i * size..(i + 1) * size]];
        assert funcs[..at + size] == funcs[..at] + funcs[at..at + size];
        at := at + size;
      } else {
        ConcatMore(parts, funcs[i * size..]);
        parts := parts + [funcs[i * size..]];
        assert funcs == funcs[..at] + funcs[at..];
      }
      i := i + 1;
    }
  }

  lemma SliceBounds(i: nat, size: nat, n: nat)
    requires i < WORKERS && size == n / WORKERS
    ensures (i + 1) * size == i * size + size
    ensures 0 <= i * size <= n
    ensures i < WORKERS - 1 ==> i * size + size <= n
    ensures i == WORKERS - 1 ==> n - i * size == size + n % WORKERS
  {
    assert n == WORKERS * size + n % WORKERS;
    assert i * size + (WORKERS - i) * size == WORKERS * size;
    assert (WORKERS - i) * size >= 0;
    if i < WORKERS - 1 {
      assert (WORKERS - i - 1) * size >= 0;
      assert (WORKERS - i) * size == (WORKERS - i - 1) * size + size;
    }
  }

  lemma ConcatNone()
    ensures Concat([]) == []
  {
  }

  lemma ConcatMore(parts: seq<seq<Func>>, last: seq<Func>)
    ensures Concat(parts + [last]) == Concat(parts) + last
  {
    assert (parts + [last])[..|parts|] == parts;
  }

  /** `m` tabulates `sites`: their addresses, each with one of their sites. */
  ghost predicate Tabulates(m: Table, sites: seq<CallSite>) {
    && (forall a :: a in m ==> m[a] in sites && m[a].addr == a)
    && (forall s :: s in sites ==> s.addr in m)
  }

  /** No two sites share an address and differ. */
  ghost predicate Agreeing(sites: seq<CallSite>) {
    forall s, t :: s in sites && t in sites && s.addr == t.addr ==> s == t
  }

  lemma {:induction false} AbsorbTabulates(m: Table, s: seq<CallSite>, t: seq<CallSite>)
    requires Tabulates(m, s)
    ensures Tabulates(Absorb(m, t), s + t)
    decreases |t|
  {
    if t == [] {
      assert s + t == s;
    } else {
      var m', s' := m[t[0].addr := t[0]], s + [t[0]];
      assert forall x :: x in s' <==> x in s || x == t[0];
      AbsorbTabulates(m', s', t[1..]);
      assert s' + t[1..] == s + t;
    }
  }

  /** Two tables of the same agreeing sites are the same table. */
  lemma TablesEqual(m: Table, n: Table, sites: seq<CallSite>)
    requires Tabulates(m, sites) && Tabulates(n, sites) && Agreeing(sites)
    ensures m == n
  {
    forall a
      ensures a in m <==> a in n
      ensures a in m && a in n ==> m[a] == n[a]
    {
    }
  }

  lemma {:induction false} SitesOfConcat(f: seq<Func>, g: seq<Func>, disasm: Disassembly)
    requires Listed(f, disasm) && Listed(g, disasm)
    ensures Listed(f + g, disasm)
    ensures var a, b := SitesOfFuncs(f, disasm), SitesOfFuncs(g, disasm);
      SitesOfFuncs(f + g, disasm) == if a.Broken? || b.Broken? then Broken else Collected(a.sites + b.sites)
  {
    if f == [] {
      assert f + g == g;
    } else {
      assert Listed(f[1..], disasm);
      SitesOfConcat(f[1..], g, disasm);
      assert (f + g)[1..] == f[1..] + g && (f + g)[0] == f[0];
      var first, rest, last := SitesOfLines(f[0].start, disasm(f[0])), SitesOfFuncs(f[1..], disasm), SitesOfFuncs(g, disasm);
      if first.Collected? && rest.Collected? && last.Collected? {
        assert first.sites + (rest.sites + last.sites) == first.sites + rest.sites + last.sites;
      }
    }
  }

  /** The map of worker `i`. */
  ghost function WorkerTable(funcs: seq<Func>, disasm: Disassembly, i: nat): Table
    requires i < 16
  {
    if Listed(Slice(funcs, i), disasm) && SitesOfFuncs(Slice(funcs, i), disasm).Collected?
    then Absorb(map[], SitesOfFuncs(Slice(funcs, i), disasm).sites) else map[]
  }

  /** Worker `i` is the first that has a site at `a`. */
  ghost predicate FirstOf(funcs: seq<Func>, disasm: Disassembly, i: nat, a: int)
    requires i < 16
  {
    a in WorkerTable(funcs, disasm, i) && forall j: nat :: j < i ==> a !in WorkerTable(funcs, disasm, j)
  }

  /** `m` has of each address what the first of the `n` workers has that has it. */
  ghost predicate FirstWins(m: Table, funcs: seq<Func>, disasm: Disassembly, n: nat)
    requires n <= 16
  {
    && (forall a :: a in m ==> exists i: nat :: i < n && a in WorkerTable(funcs, disasm, i))
    && (forall i: nat, a :: i < n && FirstOf(funcs, disasm, i, a) ==> a in m && m[a] == WorkerTable(funcs, disasm, i)[a])
  }

  /** The 16 workers and the merge. A worker that dies takes the program with it.
      Of an address that several workers have, the first one's site is kept. */
  method ExtractInParallel(funcs: seq<Func>, disasm: Disassembly) returns (r: Stored)
    requires Listed(funcs, disasm)
    ensures r.Kept? <==> SitesOfFuncs(funcs, disasm).Collected?
    ensures r.Kept? ==> Tabulates(r.table, SitesOfFuncs(funcs, disasm).sites)
    ensures r.Kept? ==> FirstWins(r.table, funcs, disasm, 16)
    ensures r.Kept? && Agreeing(SitesOfFuncs(funcs, disasm).sites) ==>
      r == Store(map[], SitesOfFuncs(funcs, disasm))
  {
    hide Tabulates, FirstWins, Slice;
    var parts := Partition(funcs);
    var table: Table := map[];
    var i := 0;
    EmptyTable();
    NobodyYet(funcs, disasm);
    assert Concat(parts[..0]) == [];
    while i < WORKERS
      invariant 0 <= i <= WORKERS
      invariant Listed(Concat(parts[..i]), disasm)
      invariant SitesOfFuncs(Concat(parts[..i]), disasm).Collected?
      invariant Tabulates(table, SitesOfFuncs(Concat(parts[..i]), disasm).sites)
      invariant FirstWins(table, funcs, disasm, i)
    {
      WorkerFits(funcs, parts, i, disasm);
      var worker := ThreadFunction(parts[i], disasm);
      if worker.Died? {
        return Died;
      }
      AbsorbTabulates(map[], [], SitesOfFuncs(parts[i], disasm).sites);
      assert [] + SitesOfFuncs(parts[i], disasm).sites == SitesOfFuncs(parts[i], disasm).sites;
      MergeTabulates(table, worker.table, SitesOfFuncs(Concat(parts[..i]), disasm).sites, SitesOfFuncs(parts[i], disasm).sites);
      MergeFirst(table, funcs, disasm, i);
      table := worker.table + table;
      i := i + 1;
    }
    assert parts[..i] == parts;
    ghost var sites := SitesOfFuncs(funcs, disasm).sites;
    AbsorbTabulates(map[], [], sites);
    assert [] + sites == sites;
    if Agreeing(sites) {
      TablesEqual(table, Absorb(map[], sites), sites);
    }
    return Kept(table);
  }

  lemma NobodyYet(funcs: seq<Func>, disasm: Disassembly)
    ensures FirstWins(map[], funcs, disasm, 0)
  {
  }

  lemma MergeFirst(m: Table, funcs: seq<Func>, disasm: Disassembly, i: nat)
    requires i < 16 && FirstWins(m, funcs, disasm, i)
    ensures FirstWins(WorkerTable(funcs, disasm, i) + m, funcs, disasm, i + 1)
  {
    hide WorkerTable;
    var n := WorkerTable(funcs, disasm, i) + m;
    assert forall a :: FirstOf(funcs, disasm, i, a) ==> a !in m;
    forall j: nat, a | j < i + 1 && FirstOf(funcs, disasm, j, a)
      ensures a in n && n[a] == WorkerTable(funcs, disasm, j)[a]
    {
    }
  }

  lemma EmptyTable()
    ensures Tabulates(map[], [])
  {
  }

  /** `insert` keeps what is there. */
  lemma MergeTabulates(m: Table, n: Table, s: seq<CallSite>, t: seq<CallSite>)
    requires Tabulates(m, s) && Tabulates(n, t)
    ensures Tabulates(n + m, s + t)
  {
  }

  lemma WorkerFits(funcs: seq<Func>, parts: seq<seq<Func>>, i: nat, disasm: Disassembly)
    requires Listed(funcs, disasm) && Concat(parts) == funcs && i < |parts|
    requires Listed(Concat(parts[..i]), disasm)
    ensures Listed(parts[i], disasm) && Listed(Concat(parts[..i + 1]), disasm)
    ensures var a, b := SitesOfFuncs(Concat(parts[..i]), disasm), SitesOfFuncs(parts[i], disasm);
      SitesOfFuncs(Concat(parts[..i + 1]), disasm) == if a.Broken? || b.Broken? then Broken else Collected(a.sites + b.sites)
    ensures SitesOfFuncs(Concat(parts[..i + 1]), disasm).Broken? ==> SitesOfFuncs(funcs, disasm).Broken?
  {
    ConcatSplits(parts, i + 1);
    var rest :| Concat(parts) == Concat(parts[..i + 1]) + rest;
    assert parts[..i + 1][..i] == parts[..i];
    var now := Concat(parts[..i + 1]);
    assert forall f :: f in now || f in rest ==> f in funcs;
    assert forall f :: f in parts[i] ==> f in now;
    SitesOfConcat(Concat(parts[..i]), parts[i], disasm);
    SitesOfConcat(now, rest, disasm);
  }

  lemma {:induction false} ConcatSplits(parts: seq<seq<Func>>, i: nat)
    requires i <= |parts|
    ensures exists rest :: Concat(parts) == Concat(parts[..i]) + rest
    decreases |parts|
  {
    if i == |parts| {
      assert parts[..i] == parts;
      assert Concat(parts) == Concat(parts[..i]) + [];
    } else {
      var init := parts[..|parts| - 1];
      ConcatSplits(init, i);
      var rest :| Concat(init) == Concat(init[..i]) + rest;
      assert init[..i] == parts[..i];
      assert Concat(parts) == Concat(parts[..i]) + (rest + parts[|parts| - 1]);
    }
  }

  // The inverted index

  type Index = map<int, seq<int>>

  /** Under each target, each of its callers, once; nothing else. */
  ghost predicate Inverts(index: Index, sites: Table) {
    && (forall t :: t in index ==> index[t] != [] && NoDuplicates(index[t]))
    && (forall t, a :: t in index && a in index[t] ==> a in sites && sites[a].target == t)
    && (forall a :: a in sites ==> sites[a].target in index && a in index[sites[a].target])
  }

  /** The number of callers listed under the targets `ts`. */
  ghost function Listings(index: Index, ts: set<int>): nat
    requires ts <= index.Keys
  {
    if ts == {} then 0
    else
      EmptyOrNot(ts);
      var t :| t in ts;
      |index[t]| + Listings(index, ts - {t})
  }

  lemma {:induction false} ListingsAny(index: Index, ts: set<int>, t: int)
    requires t in ts && ts <= index.Keys
    ensures Listings(index, ts) == |index[t]| + Listings(index, ts - {t})
    decreases |ts|
  {
    var u :| u in ts && Listings(index, ts) == |index[u]| + Listings(index, ts - {u});
    if u != t {
      ListingsAny(index, ts - {u}, t);
      ListingsAny(index, ts - {t}, u);
      assert ts - {u} - {t} == ts - {t} - {u};
    }
  }

  lemma {:induction false} ListingsFrame(index: Index, index': Index, ts: set<int>)
    requires ts <= index.Keys && ts <= index'.Keys
    requires forall t :: t in ts ==> index[t] == index'[t]
    ensures Listings(index, ts) == Listings(index', ts)
    decreases |ts|
  {
    if ts != {} {
      EmptyOrNot(ts);
      var t :| t in ts;
      ListingsAny(index, ts, t);
      ListingsAny(index', ts, t);
      ListingsFrame(index, index', ts - {t});
    }
  }

  /** The index with one more caller under one target. */
  function Filed(index: Index, target: int, addr: int): Index {
    index[target := (if target in index then index[target] else []) + [addr]]
  }

  lemma FiledCounts(index: Index, t: int, addr: int)
    ensures Listings(Filed(index, t, addr), Filed(index, t, addr).Keys) == Listings(index, index.Keys) + 1
  {
    var index' := Filed(index, t, addr);
    ListingsAny(index', index'.Keys, t);
    ListingsFrame(index, index', index'.Keys - {t});
    if t in index {
      ListingsAny(index, index.Keys, t);
      assert index'.Keys - {t} == index.Keys - {t};
    } else {
      assert index'.Keys - {t} == index.Keys;
    }
  }

  lemma FiledInverts(index: Index, done: Table, site: CallSite, addr: int)
    requires Inverts(index, done) && addr !in done
    ensures Inverts(Filed(index, site.target, addr), done[addr := site])
  {
    var t := site.target;
    var index', done' := Filed(index, t, addr), done[addr := site];
    assert addr in index'[t];
    assert t in index ==> addr !in index[t];
    forall a | a in done'
      ensures done'[a].target in index' && a in index'[done'[a].target]
    {
      if a != addr && done[a].target == t {
        assert a in index[t];
      }
    }
  }

  lemma NothingFiled(index: Index)
    requires index == map[]
    ensures Inverts(index, map[])
    ensures Listings(index, index.Keys) == 0
  {
  }

  /** The last loop of main: every caller filed under its target, in the order
      in which the hash map happens to be iterated. */
  method BuildIndex(sites: Table) returns (index: Index)
    ensures Inverts(index, sites)
    ensures Listings(index, index.Keys) == |sites|
  {
    hide Inverts, Listings, Filed;
    index := map[];
    NothingFiled(index);
    var todo := sites.Keys;
    ghost var done: Table := map[];
    assert sites - todo == done && |sites| == |sites.Keys|;
    assert index.Keys == {};
    while todo != {}
      invariant todo <= sites.Keys && done == sites - todo
      invariant Inverts(index, done)
      invariant Listings(index, index.Keys) == |sites| - |todo|
      decreases |todo|
    {
      EmptyOrNot(todo);
      var addr :| addr in todo;
      var site := sites[addr];
      FiledCounts(index, site.target, addr);
      FiledInverts(index, done, site, addr);
      index := FileCaller(index, site.target, addr);
      done := done[addr := site];
      todo := todo - {addr};
    }
    assert done == sites;
  }

  /** The branch of that loop: push onto the list that is there, or insert one. */
  method FileCaller(index: Index, target: int, addr: int) returns (index': Index)
    ensures index' == Filed(index, target, addr)
  {
    if target in index {
      index' := index[target := index[target] + [addr]];
    } else {
      var tmp := [addr];
      assert [] + tmp == tmp;
      index' := index[target := tmp];
    }
  }

  // The whole program

  /** main: the functions, their call sites and the index, or nothing when a
      worker dies. */
  method ExtractAll(lines: seq<Line>, disasm: Disassembly) returns (ok: bool, sites: Table, index: Index)
    requires Listed(ScannedFuncs(lines), disasm)
    ensures ok <==> SitesOfFuncs(ScannedFuncs(lines), disasm).Collected?
    ensures ok ==> Tabulates(sites, SitesOfFuncs(ScannedFuncs(lines), disasm).sites)
    ensures ok ==> Inverts(index, sites)
  {
    hide Tabulates, Inverts, Listed, SitesOfFuncs, FirstWins;
    var funcs := ListFunctions(lines);
    var stored := ExtractInParallel(funcs, disasm);
    ok, sites, index := stored.Kept?, map[], map[];
    if ok {
      sites := stored.table;
      index := BuildIndex(sites);
    }
  }

  /** What an extraction has, line by line: it goes through exactly when no line
      fails, every site of the table is that of some line, and every line with a
      site has an entry in the table, which the index files under its target. */
  lemma ExtractedExactly(funcs: seq<Func>, disasm: Disassembly, sites: Table, index: Index)
    requires Listed(funcs, disasm)
    ensures SitesOfFuncs(funcs, disasm).Collected? <==>
      forall f, k :: f in funcs && 0 <= k < |disasm(f)| - 1 ==> !LineMeaning(disasm(f)[k], disasm(f)[k + 1], f.start).Failed?
    ensures SitesOfFuncs(funcs, disasm).Collected? && Tabulates(sites, SitesOfFuncs(funcs, disasm).sites) && Inverts(index, sites) ==>
      && (forall a :: a in sites ==> sites[a].addr == a && exists f, k ::
            f in funcs && 0 <= k < |disasm(f)| - 1 && LineMeaning(disasm(f)[k], disasm(f)[k + 1], f.start) == Found(sites[a]))
      && (forall f, k :: f in funcs && 0 <= k < |disasm(f)| - 1 && LineMeaning(disasm(f)[k], disasm(f)[k + 1], f.start).Found? ==>
            var a := LineMeaning(disasm(f)[k], disasm(f)[k + 1], f.start).site.addr;
            a in sites && sites[a].target in index && a in index[sites[a].target])
  {
    hide LineMeaning, SitesOfLines, SitesOfFuncs, NonEmptyWords;
    FuncsExactly(funcs, disasm);
    forall f | f in funcs
      ensures Wordy(disasm(f))
      ensures SitesOfLines(f.start, disasm(f)).Collected? <==>
        forall k :: 0 <= k < |disasm(f)| - 1 ==> !LineMeaning(disasm(f)[k], disasm(f)[k + 1], f.start).Failed?
      ensures SitesOfLines(f.start, disasm(f)).Collected? ==> forall s :: s in SitesOfLines(f.start, disasm(f)).sites <==>
        exists k :: 0 <= k < |disasm(f)| - 1 && LineMeaning(disasm(f)[k], disasm(f)[k + 1], f.start) == Found(s)
    {
      LinesExactly(f.start, disasm(f));
    }
  }

  /** The extractor's addresses fit a `long`. */
  lemma {:induction false} LineAddressesLong(func: int, lines: seq<Line>)
    requires Wordy(lines) && SitesOfLines(func, lines).Collected?
    ensures forall s :: s in SitesOfLines(func, lines).sites ==> IsLong(s.addr)
    decreases |lines|
  {
    hide Value, TokenValues, ByteTokens, JoinedBackward, U32;
    if |lines| > 1 {
      assert Wordy(lines[1..]);
      LineAddressesLong(func, lines[1..]);
    }
  }

  lemma {:induction false} SiteAddressesLong(funcs: seq<Func>, disasm: Disassembly)
    requires Listed(funcs, disasm) && SitesOfFuncs(funcs, disasm).Collected?
    ensures forall s :: s in SitesOfFuncs(funcs, disasm).sites ==> IsLong(s.addr)
    decreases |funcs|
  {
    hide SitesOfLines;
    if funcs != [] {
      LineAddressesLong(funcs[0].start, disasm(funcs[0]));
      SiteAddressesLong(funcs[1..], disasm);
    }
  }

  // What a decoded call means

  /** A call line as objdump prints it for the five bytes at `addr`. */
  function PrintedCall(addr: nat, code: seq<Byte>, mnemonic: string, target: nat, symbol: string): Line
    requires |code| == 5
  {
    [Printed(addr) + ":"] + Tokens(code) + [mnemonic, Printed(target), symbol]
  }

  lemma {:induction false} TokensOfAppend(l: Line, m: Line)
    ensures ByteTokens(l + m) == ByteTokens(l) + ByteTokens(m)
    decreases |m|
  {
    if m == [] {
      assert l + m == l;
    } else {
      var init := m[..|m| - 1];
      TokensOfAppend(l, init);
      assert (l + m)[..|l + m| - 1] == l + init;
    }
  }

  lemma {:induction false} TokensOfBytes(bs: seq<Byte>)
    ensures ByteTokens(Tokens(bs)) == Tokens(bs)
    ensures TokenValues(Tokens(bs)) == bs
    decreases |bs|
  {
    if bs != [] {
      var init := bs[..|bs| - 1];
      TokensOfBytes(init);
      assert Tokens(bs)[..|bs| - 1] == Tokens(init);
    }
    forall i | 0 <= i < |bs|
      ensures TokenValues(Tokens(bs))[i] == bs[i]
    {
      ValueOfByteToken(bs[i]);
    }
  }

  lemma NoTokens(l: Line)
    requires forall k :: 0 <= k < |l| ==> !IsByteToken(l[k])
    ensures ByteTokens(l) == []
  {
    if l != [] {
      NoTokens(l[..|l| - 1]);
    }
  }

  predicate OrdinarySymbol(symbol: string) {
    |symbol| >= 5 && !IsPlt(symbol)
  }

  lemma AddressOfPrinted(n: nat)
    requires n < TWO_63
    ensures AddressOf(Printed(n) + ":") == n
  {
    ValueOfPrinted(n);
    var w := Printed(n) + ":";
    assert w[..|w| - 1] == Printed(n);
    SmallU64(n);
  }

  /** Decoding a printed direct call, for every symbol: a short one throws, a
      call through the PLT or on the last line is skipped, and a target that
      prints as two digits is mistaken for a sixth byte. Every other call gives
      its address, its five bytes, and the little-endian displacement added to
      the next address modulo 2^32. */
  lemma DecodedCall(addr: nat, code: seq<Byte>, mnemonic: string, target: nat, symbol: string, next: Line, func: int)
    requires |code| == 5 && addr + 5 < TWO_63
    requires mnemonic == "call" || mnemonic == "callq"
    requires symbol != []
    requires NonEmptyWords(next) && (next != [] ==> next[0] == Printed(addr + 5) + ":")
    ensures NonEmptyWords(PrintedCall(addr, code, mnemonic, target, symbol))
    ensures LineMeaning(PrintedCall(addr, code, mnemonic, target, symbol), next, func)
         == if |symbol| < 5 then Failed(ShortSymbol)
            else if (|symbol| > 5 && symbol[|symbol| - 5..] == "@plt>") || next == [] then Skip
            else if 16 <= target < 256 then Failed(TooManyBytes)
            else Found(CallSite(code, addr, addr + 5, func, U32(LE(code[1..]) + (addr + 5))))
  {
    hide Value, S64, U32, TokenValues, ByteTokens, Tokens, JoinedBackward, LE;
    var words := PrintedCall(addr, code, mnemonic, target, symbol);
    AddressOfPrinted(addr);
    AddressOfPrinted(addr + 5);
    PrintedWords(addr, code, mnemonic, target, symbol);
    if |symbol| >= 5 {
      TokensOfCall(addr, code, mnemonic, target, symbol);
    }
  }

  lemma PrintedWords(addr: nat, code: seq<Byte>, mnemonic: string, target: nat, symbol: string)
    requires |code| == 5 && mnemonic != [] && symbol != []
    ensures var words := PrintedCall(addr, code, mnemonic, target, symbol);
      && |words| == 9 && words[0] == Printed(addr) + ":" && words[6] == mnemonic && words[8] == symbol
      && NonEmptyWords(words)
  {
    hide Value, LE, IsByteToken;
    var ts := Tokens(code);
    assert forall k :: 0 <= k < 5 ==> |ts[k]| == 2 by { TokensArePairs(code); }
  }

  lemma TokensArePairs(bs: seq<Byte>)
    ensures forall k :: 0 <= k < |bs| ==> IsByteToken(Tokens(bs)[k])
  {
  }

  /** The byte tokens of a printed call. */
  lemma TokensOfCall(addr: nat, code: seq<Byte>, mnemonic: string, target: nat, symbol: string)
    requires |code| == 5
    requires mnemonic == "call" || mnemonic == "callq"
    requires |symbol| >= 5
    ensures var ts := ByteTokens(PrintedCall(addr, code, mnemonic, target, symbol));
      if 16 <= target < 256 then |ts| == 6
      else |ts| == 5 && TokenValues(ts) == code && Value(JoinedBackward(ts[1..])) == LE(code[1..])
  {
    hide Printed, Value, LE;
    var first, ts, tail := [Printed(addr) + ":"], Tokens(code), [mnemonic, Printed(target), symbol];
    ColonIsNoToken(Printed(addr));
    TokensOfAppend(first, ts);
    TokensOfAppend(first + ts, tail);
    NoTokens(first);
    TokensOfBytes(code);
    TokensOfTail(mnemonic, target, symbol);
    if !(16 <= target < 256) {
      assert ByteTokens(first + ts + tail) == ts;
      assert ts[1..] == Tokens(code[1..]);
      JoinedBackwardValue(code[1..]);
    }
  }

  lemma ColonIsNoToken(s: string)
    ensures !IsByteToken(s + ":")
  {
    if |s| == 1 {
      assert (s + ":")[1] == ':';
    }
  }

  lemma TokensOfTail(mnemonic: string, target: nat, symbol: string)
    requires mnemonic == "call" || mnemonic == "callq"
    requires |symbol| >= 5
    ensures |ByteTokens([mnemonic, Printed(target), symbol])| == if 16 <= target < 256 then 1 else 0
  {
    var tail := [mnemonic, Printed(target), symbol];
    assert tail[..2][..1] == [mnemonic] && tail[..2][1] == Printed(target);
    NoTokens([mnemonic]);
    assert ByteTokens(tail) == ByteTokens(tail[..2]);
  }

  /** The sum modulo 2^32 is the processor's target, forward and backward,
      whenever that target lies in the low 4 GiB, and only then. */
  lemma TargetIsArchitectural(displacement: nat, next: int)
    requires displacement < TWO_32
    ensures U32(displacement + next) == next + S32(displacement) <==> 0 <= next + S32(displacement) < TWO_32
  {
    var t := next + S32(displacement);
    if displacement < TWO_31 {
      U32Shift(t, displacement + next, 0);
    } else {
      assert U32(displacement) == displacement;
      U32Shift(t, displacement + next, 1);
    }
    if 0 <= t < TWO_32 {
      RemainderIs(t, 0, t);
    }
  }

  /** A generated patch, printed and extracted again, leads to the new address,
      unless its symbol or its target trips the extractor. */
  lemma PatchReadsBack(addr: nat, moved: nat, mnemonic: string, target: nat, symbol: string, next: Line, func: int)
    requires addr + 5 <= moved < TWO_32
    requires mnemonic == "call" || mnemonic == "callq"
    requires symbol != []
    requires NonEmptyWords(next) && next != [] && next[0] == Printed(addr + 5) + ":"
    ensures var code := [0xE8] + Rel32Bytes(moved - (addr + 5));
      && NonEmptyWords(PrintedCall(addr, code, mnemonic, target, symbol))
      && (LineMeaning(PrintedCall(addr, code, mnemonic, target, symbol), next, func)
            == Found(CallSite(code, addr, addr + 5, func, moved))
          <==> OrdinarySymbol(symbol) && !(16 <= target < 256))
  {
    hide LineMeaning, PrintedCall, NonEmptyWords, Rel32Bytes, LE, U32;
    var code := [0xE8] + Rel32Bytes(moved - (addr + 5));
    DecodedCall(addr, code, mnemonic, target, symbol, next, func);
    assert code[1..] == Rel32Bytes(moved - (addr + 5));
    PatchDistance(addr + 5, moved);
  }

  lemma PatchDistance(next: nat, moved: nat)
    requires next <= moved < TWO_32
    ensures U32(LE(Rel32Bytes(moved - next)) + next) == moved
  {
    EncoderExact(moved - next);
    RemainderIs(moved - next, 0, moved - next);
    RemainderIs(moved, 0, moved);
  }
}
