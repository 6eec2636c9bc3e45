/** The tracer's hold on the threads (src/ptrace_pause.cpp): the scan for
    thread ids, the hijack of one runnable thread and the restoration of its
    registers. What the kernel answers is an input. */
module Injection {
  import opened Words

  // The scan of /proc/<pid>/task

  predicate IsNumber(w: string) { forall k :: 0 <= k < |w| ==> '0' <= w[k] <= '9' }

  function Decimal(w: string): int {
    if w == [] then 0 else 10 * Decimal(w[..|w| - 1]) + (w[|w| - 1] as int - '0' as int)
  }

  function DecimalDigit(d: nat): (c: char)
    requires d < 10
    ensures '0' <= c <= '9' && c as int == '0' as int + d
  {
    '0' + d as char
  }

  /** A number in base 10, as the kernel names a thread's directory. */
  function PrintedDecimal(n: nat): (s: string)
    ensures s != [] && IsNumber(s)
    decreases n
  {
    if n < 10 then [DecimalDigit(n)] else PrintedDecimal(n / 10) + [DecimalDigit(n % 10)]
  }

  /** The directory of every thread gives back its id. */
  lemma {:induction false} DecimalOfPrinted(n: nat)
    ensures Decimal(PrintedDecimal(n)) == n
    decreases n
  {
    var s := PrintedDecimal(n);
    if n < 10 {
      assert s[..0] == [];
      assert Decimal(s) == 10 * Decimal(s[..0]) + (s[0] as int - '0' as int);
    } else {
      DecimalOfPrinted(n / 10);
      assert s[..|s| - 1] == PrintedDecimal(n / 10);
    }
  }

  lemma DecimalLiteral()
    ensures Decimal("4096") == 4096
  {
    var s := "4096";
    assert s[..3] == "409" && "409"[..2] == "40" && "40"[..1] == "4" && "4"[..0] == "";
    assert Decimal("409") == 10 * Decimal("40") + 9;
  }

  method IsNum(word: string) returns (r: bool)
    ensures r == IsNumber(word)
  {
    var i := 0;
    while i < |word|
      invariant 0 <= i <= |word|
      invariant forall k :: 0 <= k < i ==> '0' <= word[k] <= '9'
    {
      if !('0' <= word[i] <= '9') {
        return false;
      }
      i := i + 1;
    }
    return true;
  }

  method ConvertStr2Int(str: string) returns (result: int)
    ensures result == Decimal(str)
  {
    result := 0;
    var i := 0;
    while i < |str|
      invariant 0 <= i <= |str|
      invariant i < |str| ==> result == 10 * Decimal(str[..i])
      invariant i == |str| ==> result == Decimal(str)
    {
      assert str[..i + 1][..i] == str[..i];
      result := result + (str[i] as int - '0' as int);
      if i != |str| - 1 {
        result := result * 10;
      } else {
        assert str[..i + 1] == str;
      }
      i := i + 1;
    }
  }

  /** The directory names thread `t`. */
  predicate Names(entries: seq<string>, t: int) {
    exists k :: 0 <= k < |entries| && IsNumber(entries[k]) && Decimal(entries[k]) == t
  }

  /** Some scan before the `n`-th names thread `t`. */
  ghost predicate Seen(scan: nat -> seq<string>, n: nat, t: int) {
    exists k: nat :: k < n && Names(scan(k), t)
  }

  ghost predicate NothingNew(entries: seq<string>, scan: nat -> seq<string>, n: nat) {
    forall t :: Names(entries, t) ==> Seen(scan, n, t)
  }

  /** pause_and_get_tids: the scan is repeated until it names no new thread. The
      result is every thread any scan named, once, and the last scan named only
      threads an earlier one did. Finitely many thread ids end the loop. */
  method PauseAndGetTids(scan: nat -> seq<string>, ghost universe: set<int>) returns (tids: seq<int>, rounds: nat)
    requires forall k: nat, t :: Names(scan(k), t) ==> t in universe
    ensures NoDuplicates(tids) && rounds > 0
    ensures forall t :: t in tids <==> Seen(scan, rounds, t)
    ensures forall t :: t in tids <==>
      exists n: nat, k :: n < rounds && 0 <= k < |scan(n)| && IsNumber(scan(n)[k]) && Decimal(scan(n)[k]) == t
    ensures NothingNew(scan(rounds - 1), scan, rounds - 1)
  {
    tids, rounds := [], 0;
    var tidsSet: set<int> := {};
    while true
      invariant NoDuplicates(tids) && tidsSet <= universe
      invariant forall t :: t in tids <==> t in tidsSet
      invariant forall t :: t in tids <==> Seen(scan, rounds, t)
      decreases |universe - tidsSet|
    {
      ghost var before := tidsSet;
      var hasNew;
      tids, tidsSet, hasNew := ReadDirectory(scan(rounds), tids, tidsSet);
      SeenNext(scan, rounds);
      rounds := rounds + 1;
      if !hasNew {
        SeenMeans(scan, rounds);
        return;
      }
      Shrinks(universe, before, tidsSet);
    }
  }

  lemma SeenNext(scan: nat -> seq<string>, n: nat)
    ensures forall t :: Seen(scan, n + 1, t) <==> Seen(scan, n, t) || Names(scan(n), t)
  {
  }

  lemma SeenMeans(scan: nat -> seq<string>, n: nat)
    ensures forall t :: Seen(scan, n, t) <==>
      exists m: nat, k :: m < n && 0 <= k < |scan(m)| && IsNumber(scan(m)[k]) && Decimal(scan(m)[k]) == t
  {
  }

  lemma Shrinks(universe: set<int>, s: set<int>, t: set<int>)
    requires s < t <= universe
    ensures |universe - t| < |universe - s|
  {
    EmptyOrNot(t - s);
    var x :| x in t - s;
    assert universe - t <= universe - s - {x};
    Subset(universe - t, universe - s - {x});
  }

  lemma {:induction false} Subset(s: set<int>, t: set<int>)
    requires s <= t
    ensures |s| <= |t|
    decreases s
  {
    EmptyOrNot(s);
    if x :| x in s {
      Subset(s - {x}, t - {x});
    }
  }

  /** One pass over the directory. */
  method ReadDirectory(entries: seq<string>, tids0: seq<int>, set0: set<int>)
    returns (tids: seq<int>, tidsSet: set<int>, hasNew: bool)
    requires NoDuplicates(tids0) && forall t :: t in tids0 <==> t in set0
    ensures NoDuplicates(tids) && forall t :: t in tids <==> t in tidsSet
    ensures forall t :: t in tidsSet <==> t in set0 || Names(entries, t)
    ensures forall t :: t in tidsSet <==>
      t in set0 || exists k :: 0 <= k < |entries| && IsNumber(entries[k]) && Decimal(entries[k]) == t
    ensures hasNew <==> set0 < tidsSet
  {
    tids, tidsSet, hasNew := tids0, set0, false;
    var i := 0;
    while i < |entries|
      invariant 0 <= i <= |entries|
      invariant NoDuplicates(tids) && forall t :: t in tids <==> t in tidsSet
      invariant forall t :: t in tidsSet <==> t in set0 || Names(entries[..i], t)
      invariant set0 <= tidsSet && (hasNew <==> tidsSet != set0)
    {
      NamesNext(entries, i);
      var num := IsNum(entries[i]);
      if num {
        var tid := ConvertStr2Int(entries[i]);
        if tid !in tidsSet {
          tids := tids + [tid];
          tidsSet := tidsSet + {tid};
          hasNew := true;
        }
      }
      i := i + 1;
    }
    assert entries[..i] == entries;
  }

  lemma NamesNext(entries: seq<string>, i: nat)
    requires i < |entries|
    ensures forall t :: Names(entries[..i + 1], t) <==>
      Names(entries[..i], t) || (IsNumber(entries[i]) && Decimal(entries[i]) == t)
  {
    forall t
      ensures Names(entries[..i + 1], t) <==> Names(entries[..i], t) || (IsNumber(entries[i]) && Decimal(entries[i]) == t)
    {
      if Names(entries[..i], t) {
        var k :| 0 <= k < i && IsNumber(entries[..i][k]) && Decimal(entries[..i][k]) == t;
        assert entries[..i + 1][k] == entries[k];
      }
      assert entries[..i + 1][i] == entries[i];
    }
  }

  // The hijack

  /** General registers; `rest` is what the hijack leaves alone. */
  datatype Regs = Regs(rip: int, rsp: int, rest: seq<int>)

  type FpRegs = seq<int>

  /** `((rsp - 256) & ~15) - 8` in 64 bits. */
  function HijackedStack(rsp: int): int {
    var x := U64(rsp - 256);
    U64(x - x % 16 - 8)
  }

  /** The library is entered with the stack alignment of a called function, and
      its frame starts below the old stack pointer and the 128-byte red zone. */
  lemma HijackedStackFits(rsp: int)
    requires 512 <= rsp < TWO_64
    ensures (HijackedStack(rsp) + 8) % 16 == 0
    ensures rsp - 279 <= HijackedStack(rsp) <= rsp - 264
    ensures HijackedStack(rsp) + 8 < rsp - 128
  {
    SmallU64(rsp - 256);
    var x := rsp - 256;
    SmallU64(x - x % 16 - 8);
  }

  const SIGTRAP: int := 5

  datatype Status = Exited | Signaled | Stopped(sig: int)

  /** What the kernel does with one attempt: whether setting registers works,
      how the thread stops, with which registers, and whether resetting works. */
  datatype Answer = Answer(status: Status, regs: Regs, fp: FpRegs, setOk: bool, resetOk: bool, resetFpOk: bool)

  /** The kernel and the thread, given the registers the thread is handed. */
  type Kernel = Regs -> Answer

  /** `Quit` is exit(-1) of the tracer. */
  datatype Attempt = Quit | Refused | Runnable

  class Tracee {
    var regs: map<int, Regs>
    var fp: map<int, FpRegs>

    constructor (regs: map<int, Regs>, fp: map<int, FpRegs>)
      ensures this.regs == regs && this.fp == fp
    {
      this.regs, this.fp := regs, fp;
    }

    /** ptrace_single_step: the thread is handed the library's address and a stack
        of its own. It is runnable when it stops with SIGTRAP beyond the library's
        first byte, and refused when it stops otherwise and gets its registers
        back; of a runnable one the caller holds the old registers. */
    method PtraceSingleStep(tid: int, libAddr: int, kernel: Kernel) returns (r: Attempt, oldRegs: Regs, fregs: FpRegs, a: Answer)
      requires tid in regs && tid in fp
      modifies this
      ensures oldRegs == old(regs)[tid] && fregs == old(fp)[tid]
      ensures a == kernel(Regs(libAddr, HijackedStack(oldRegs.rsp), oldRegs.rest))
      ensures r.Runnable? <==> a.setOk && a.status == Stopped(5) && a.regs.rip > libAddr
      ensures r.Refused? <==>
        a.setOk && a.status.Stopped? && (a.status.sig != 5 || a.regs.rip <= libAddr) && a.resetOk && a.resetFpOk
      ensures r.Refused? ==> regs == old(regs) && fp == old(fp)
      ensures r.Runnable? ==> regs == old(regs)[tid := a.regs] && fp == old(fp)[tid := a.fp]
    {
      oldRegs, fregs := regs[tid], fp[tid];
      var hijacked := oldRegs;
      hijacked := hijacked.(rip := libAddr);
      hijacked := hijacked.(rsp := HijackedStack(hijacked.rsp));
      a := kernel(hijacked);
      if !a.setOk {
        return Quit, oldRegs, fregs, a;
      }
      regs := regs[tid := hijacked];
      // the single step
      regs, fp := regs[tid := a.regs], fp[tid := a.fp];
      if !a.status.Stopped? {
        return Quit, oldRegs, fregs, a;
      }
      if a.status.sig != SIGTRAP || regs[tid].rip <= libAddr {
        if !a.resetOk {
          return Quit, oldRegs, fregs, a;
        }
        regs := regs[tid := oldRegs];
        if !a.resetFpOk {
          return Quit, oldRegs, fregs, a;
        }
        fp := fp[tid := fregs];
        return Refused, oldRegs, fregs, a;
      }
      return Runnable, oldRegs, fregs, a;
    }

    /** ptrace_cont: the library runs until the thread stops, and the thread gets
        its registers back on whatever signal that was. */
    method PtraceCont(tid: int, oldRegs: Regs, fregs: FpRegs, a: Answer) returns (quit: bool)
      requires tid in regs && tid in fp
      modifies this
      ensures !quit <==> a.status.Stopped? && a.resetOk && a.resetFpOk
      ensures !quit ==> regs == old(regs)[tid := oldRegs] && fp == old(fp)[tid := fregs]
    {
      regs, fp := regs[tid := a.regs], fp[tid := a.fp];
      if !a.status.Stopped? {
        return true;
      }
      if !a.resetOk {
        return true;
      }
      regs := regs[tid := oldRegs];
      if !a.resetFpOk {
        return true;
      }
      fp := fp[tid := fregs];
      return false;
    }

    /** The thread loop of the tracer: threads are tried in order, the first that
        can make a step runs the library, and no other is touched. `answers` is
        what the kernel answered for the threads tried. Unless the tracer quits,
        every register of every thread is as before. */
    method RunLibrary(tids: seq<int>, libAddr: int, kernels: seq<Kernel>, conts: seq<Answer>)
      returns (quit: bool, ran: int, answers: seq<Answer>)
      requires |kernels| == |conts| == |tids|
      requires forall i :: 0 <= i < |tids| ==> tids[i] in regs && tids[i] in fp
      modifies this
      ensures !quit ==> regs == old(regs) && fp == old(fp)
      ensures 0 <= ran <= |tids| && |answers| == if ran < |tids| then ran + 1 else ran
      ensures forall j :: 0 <= j < |answers| ==>
        answers[j] == kernels[j](Regs(libAddr, HijackedStack(old(regs)[tids[j]].rsp), old(regs)[tids[j]].rest))
      ensures forall j :: 0 <= j < |answers| ==>
        (j < ran <==> (&& answers[j].setOk && answers[j].status.Stopped? && answers[j].resetOk && answers[j].resetFpOk
                       && (answers[j].status.sig != 5 || answers[j].regs.rip <= libAddr)))
      ensures !quit <==>
        || ran == |tids|
        || (&& answers[ran].setOk && answers[ran].status == Stopped(5) && answers[ran].regs.rip > libAddr
            && conts[ran].status.Stopped? && conts[ran].resetOk && conts[ran].resetFpOk)
    {
      ran, answers := 0, [];
      while ran < |tids|
        invariant 0 <= ran <= |tids| && |answers| == ran
        invariant regs == old(regs) && fp == old(fp)
        invariant forall j :: 0 <= j < ran ==>
          answers[j] == kernels[j](Regs(libAddr, HijackedStack(old(regs)[tids[j]].rsp), old(regs)[tids[j]].rest))
        invariant forall j :: 0 <= j < ran ==>
          && answers[j].setOk && answers[j].status.Stopped? && (answers[j].status.sig != 5 || answers[j].regs.rip <= libAddr)
          && answers[j].resetOk && answers[j].resetFpOk
      {
        var r, oldRegs, fregs, a := PtraceSingleStep(tids[ran], libAddr, kernels[ran]);
        answers := answers + [a];
        if r.Quit? {
          return true, ran, answers;
        }
        if r.Runnable? {
          quit := PtraceCont(tids[ran], oldRegs, fregs, conts[ran]);
          return;
        }
        ran := ran + 1;
      }
      return false, ran, answers;
    }
  }
}
