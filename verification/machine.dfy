/** A machine with any number of threads running one code image, and the
    bisimulation argument that lifts a local correspondence between code
    addresses of two images to all runs of the whole process. */
module Machine {
  import opened Words
  import opened Code

  /** What the processor does to program data; data are shared by all threads.
      `point` stores a function pointer, and `pick` is the one a call uses. */
  datatype Cpu<!D> = Cpu(exec: (nat, Byte, D) -> D, flag: (nat, D) -> bool, point: (nat, int, D) -> D, pick: (nat, D) -> int)

  /** Code memory, and the original entry address of each renamed entry. */
  datatype Image = Image(mem: Memory, names: map<int, int>)

  datatype Thread = Thread(pc: int, stack: seq<int>)

  datatype Process<D> = Process(data: D, threads: seq<Thread>)

  datatype Event =
    | Did(tid: nat, opcode: Byte)
    | Entered(tid: nat, func: int)
    | Left(tid: nat)
    | Pointed(tid: nat, func: int)

  datatype Instr =
    | DoOp(opcode: Byte, next: int)
    | DoBranch(negated: bool, target: int, next: int)
    | DoJump(target: int)
    | DoCall(target: int, next: int)
    | DoPick(next: int)
    | DoPoint(target: int, next: int)
    | DoRet
    | Fault

  function NameOf(img: Image, entry: int): int {
    if entry in img.names then img.names[entry] else entry
  }

  /** The instruction at `a`, indirect call targets read from memory. */
  function Fetch(mem: Memory, a: int): Instr {
    match Decode(mem, a)
    case Undecodable => Fault
    case Inst(Op(b), n) => DoOp(b, a + n)
    case Inst(Branch(neg, t), n) => DoBranch(neg, t, a + n)
    case Inst(Jump(t), n) => DoJump(t)
    case Inst(Call(t), n) => DoCall(t, a + n)
    case Inst(CallSlot(s), n) => if Has(mem, s, 8) then DoCall(LE(Bytes(mem, s, 8)), a + n) else Fault
    case Inst(CallData, n) => DoPick(a + n)
    case Inst(Point(t), n) => DoPoint(t, a + n)
    case Inst(Ret, n) => DoRet
  }

  datatype Outcome<D> = Stuck | Moved(proc: Process<D>, events: seq<Event>)

  function BranchTo(i: Instr, flag: bool): int
    requires i.DoBranch?
  {
    if flag != i.negated then i.target else i.next
  }

  /** One instruction of thread `tid`. A function pointer goes through the hook
      when it is created, which answers with the original entry. */
  function Step<D>(img: Image, cpu: Cpu<D>, p: Process<D>, tid: nat): Outcome<D> {
    if tid >= |p.threads| then Stuck
    else
      var th := p.threads[tid];
      match Fetch(img.mem, th.pc)
      case DoOp(b, next) =>
        Moved(Process(cpu.exec(tid, b, p.data), p.threads[tid := th.(pc := next)]), [Did(tid, b)])
      case DoBranch(neg, t, next) =>
        var pc := BranchTo(DoBranch(neg, t, next), cpu.flag(tid, p.data));
        Moved(p.(threads := p.threads[tid := th.(pc := pc)]), [])
      case DoJump(t) =>
        Moved(p.(threads := p.threads[tid := th.(pc := t)]), [])
      case DoCall(t, next) =>
        Moved(p.(threads := p.threads[tid := Thread(t, [next] + th.stack)]), [Entered(tid, NameOf(img, t))])
      case DoPick(next) =>
        var t := cpu.pick(tid, p.data);
        Moved(p.(threads := p.threads[tid := Thread(t, [next] + th.stack)]), [Entered(tid, NameOf(img, t))])
      case DoPoint(t, next) =>
        var f := NameOf(img, t);
        Moved(Process(cpu.point(tid, f, p.data), p.threads[tid := th.(pc := next)]), [Pointed(tid, f)])
      case DoRet =>
        if th.stack == [] then Stuck
        else Moved(p.(threads := p.threads[tid := Thread(th.stack[0], th.stack[1..])]), [Left(tid)])
      case Fault => Stuck
  }

  /** A run under a schedule of thread numbers, with the trace it leaves. */
  function Run<D>(img: Image, cpu: Cpu<D>, p: Process<D>, schedule: seq<nat>): Outcome<D>
    decreases |schedule|
  {
    if schedule == [] then Moved(p, [])
    else
      var first := Step(img, cpu, p, schedule[0]);
      if first.Stuck? then Stuck
      else
        var rest := Run(img, cpu, first.proc, schedule[1..]);
        if rest.Stuck? then Stuck else Moved(rest.proc, first.events + rest.events)
  }

  /** Some schedule runs to completion and leaves this trace. */
  ghost predicate HasTrace<D>(img: Image, cpu: Cpu<D>, p: Process<D>, trace: seq<Event>) {
    exists schedule :: Run(img, cpu, p, schedule).Moved? && Run(img, cpu, p, schedule).events == trace
  }

  /** The two processes have exactly the same traces. */
  ghost predicate SameBehaviour<D>(P: Image, p: Process<D>, Q: Image, q: Process<D>, cpu: Cpu<D>) {
    forall trace :: HasTrace(P, cpu, p, trace) <==> HasTrace(Q, cpu, q, trace)
  }

  /** A correspondence of code addresses, with a rank that bounds the silent
      jumps one side may take alone. */
  datatype Link = Link(rel: (int, int) -> bool, rank: (int, int) -> nat)

  /** No thread is about to call through a pointer that names no entry. */
  ghost predicate PicksEntries<D>(img: Image, entries: set<int>, cpu: Cpu<D>, p: Process<D>) {
    forall tid: nat :: tid < |p.threads| && Fetch(img.mem, p.threads[tid].pc).DoPick? ==> cpu.pick(tid, p.data) in entries
  }

  /** However long the process runs, the pointers it calls through name entries. */
  ghost predicate CallsEntries<D>(img: Image, entries: set<int>, cpu: Cpu<D>, p: Process<D>) {
    forall schedule :: Run(img, cpu, p, schedule).Moved? ==> PicksEntries(img, entries, cpu, Run(img, cpu, p, schedule).proc)
  }

  lemma CallsEntriesLater<D>(img: Image, entries: set<int>, cpu: Cpu<D>, p: Process<D>, done: seq<nat>)
    requires CallsEntries(img, entries, cpu, p) && Run(img, cpu, p, done).Moved?
    ensures CallsEntries(img, entries, cpu, Run(img, cpu, p, done).proc)
  {
    hide PicksEntries;
    var q := Run(img, cpu, p, done).proc;
    forall schedule | Run(img, cpu, q, schedule).Moved?
      ensures PicksEntries(img, entries, cpu, Run(img, cpu, q, schedule).proc)
    {
      RunAppend(img, cpu, p, done, schedule);
    }
  }

  lemma CallsEntriesNow<D>(img: Image, entries: set<int>, cpu: Cpu<D>, p: Process<D>)
    requires CallsEntries(img, entries, cpu, p)
    ensures PicksEntries(img, entries, cpu, p)
  {
    assert Run(img, cpu, p, []).proc == p;
  }

  lemma RunOne<D>(img: Image, cpu: Cpu<D>, p: Process<D>, tid: nat)
    requires Step(img, cpu, p, tid).Moved?
    ensures Run(img, cpu, p, [tid]) == Step(img, cpu, p, tid)
  {
    assert [tid][1..] == [];
  }

  /** Related addresses hold instructions that do the same and continue at
      related addresses; a jump may be taken by one side alone. */
  ghost predicate Matches(P: Image, Q: Image, l: Link, a: int, b: int) {
    var i, j := Fetch(P.mem, a), Fetch(Q.mem, b);
    || (i.DoJump? && l.rel(i.target, b) && l.rank(i.target, b) < l.rank(a, b))
    || (j.DoJump? && l.rel(a, j.target) && l.rank(a, j.target) < l.rank(a, b))
    || (i.DoJump? && j.DoJump? && l.rel(i.target, j.target))
    || (i.DoOp? && j.DoOp? && i.opcode == j.opcode && l.rel(i.next, j.next))
    || (i.DoBranch? && j.DoBranch?
        && l.rel(BranchTo(i, true), BranchTo(j, true)) && l.rel(BranchTo(i, false), BranchTo(j, false)))
    || (i.DoCall? && j.DoCall? && NameOf(P, i.target) == NameOf(Q, j.target)
        && l.rel(i.target, j.target) && l.rel(i.next, j.next))
    || (i.DoPick? && j.DoPick? && l.rel(i.next, j.next))
    || (i.DoPoint? && j.DoPoint? && NameOf(P, i.target) == NameOf(Q, j.target) && l.rel(i.next, j.next))
    || (i.DoRet? && j.DoRet?)
    || (i.Fault? && j.Fault?)
  }

  lemma MatchOps(P: Image, Q: Image, l: Link, a: int, b: int)
    requires Fetch(P.mem, a).DoOp? && Fetch(Q.mem, b).DoOp? && Fetch(P.mem, a).opcode == Fetch(Q.mem, b).opcode
    requires l.rel(Fetch(P.mem, a).next, Fetch(Q.mem, b).next)
    ensures Matches(P, Q, l, a, b)
  {
  }

  lemma MatchBranches(P: Image, Q: Image, l: Link, a: int, b: int)
    requires Fetch(P.mem, a).DoBranch? && Fetch(Q.mem, b).DoBranch?
    requires forall flag :: l.rel(BranchTo(Fetch(P.mem, a), flag), BranchTo(Fetch(Q.mem, b), flag))
    ensures Matches(P, Q, l, a, b)
  {
  }

  lemma MatchJumps(P: Image, Q: Image, l: Link, a: int, b: int)
    requires Fetch(P.mem, a).DoJump? && Fetch(Q.mem, b).DoJump?
    requires l.rel(Fetch(P.mem, a).target, Fetch(Q.mem, b).target)
    ensures Matches(P, Q, l, a, b)
  {
  }

  lemma MatchLeftJump(P: Image, Q: Image, l: Link, a: int, b: int)
    requires Fetch(P.mem, a).DoJump? && l.rel(Fetch(P.mem, a).target, b)
    requires l.rank(Fetch(P.mem, a).target, b) < l.rank(a, b)
    ensures Matches(P, Q, l, a, b)
  {
  }

  lemma MatchRightJump(P: Image, Q: Image, l: Link, a: int, b: int)
    requires Fetch(Q.mem, b).DoJump? && l.rel(a, Fetch(Q.mem, b).target)
    requires l.rank(a, Fetch(Q.mem, b).target) < l.rank(a, b)
    ensures Matches(P, Q, l, a, b)
  {
  }

  lemma MatchCalls(P: Image, Q: Image, l: Link, a: int, b: int)
    requires Fetch(P.mem, a).DoCall? && Fetch(Q.mem, b).DoCall?
    requires NameOf(P, Fetch(P.mem, a).target) == NameOf(Q, Fetch(Q.mem, b).target)
    requires l.rel(Fetch(P.mem, a).target, Fetch(Q.mem, b).target)
    requires l.rel(Fetch(P.mem, a).next, Fetch(Q.mem, b).next)
    ensures Matches(P, Q, l, a, b)
  {
  }

  lemma MatchPicks(P: Image, Q: Image, l: Link, a: int, b: int)
    requires Fetch(P.mem, a).DoPick? && Fetch(Q.mem, b).DoPick?
    requires l.rel(Fetch(P.mem, a).next, Fetch(Q.mem, b).next)
    ensures Matches(P, Q, l, a, b)
  {
  }

  lemma MatchPoints(P: Image, Q: Image, l: Link, a: int, b: int)
    requires Fetch(P.mem, a).DoPoint? && Fetch(Q.mem, b).DoPoint?
    requires NameOf(P, Fetch(P.mem, a).target) == NameOf(Q, Fetch(Q.mem, b).target)
    requires l.rel(Fetch(P.mem, a).next, Fetch(Q.mem, b).next)
    ensures Matches(P, Q, l, a, b)
  {
  }

  lemma MatchRets(P: Image, Q: Image, l: Link, a: int, b: int)
    requires Fetch(P.mem, a).DoRet? && Fetch(Q.mem, b).DoRet?
    ensures Matches(P, Q, l, a, b)
  {
  }

  ghost predicate Bisimulates(P: Image, Q: Image, l: Link) {
    forall a, b {:trigger l.rel(a, b)} :: l.rel(a, b) ==> Matches(P, Q, l, a, b)
  }

  /** Both images have the same entries at the same addresses. */
  ghost predicate SharesEntries(P: Image, Q: Image, l: Link, entries: set<int>) {
    forall t :: t in entries ==> l.rel(t, t) && NameOf(P, t) == NameOf(Q, t)
  }

  /** One of the two processes calls through pointers to entries only. */
  ghost predicate PointersKnown<D>(P: Image, p: Process<D>, Q: Image, q: Process<D>, cpu: Cpu<D>, entries: set<int>) {
    CallsEntries(P, entries, cpu, p) || CallsEntries(Q, entries, cpu, q)
  }

  lemma PointersKnownLater<D>(P: Image, p: Process<D>, Q: Image, q: Process<D>, cpu: Cpu<D>, entries: set<int>, s: seq<nat>, t: seq<nat>)
    requires PointersKnown(P, p, Q, q, cpu, entries)
    requires Run(P, cpu, p, s).Moved? && Run(Q, cpu, q, t).Moved?
    ensures PointersKnown(P, Run(P, cpu, p, s).proc, Q, Run(Q, cpu, q, t).proc, cpu, entries)
  {
    if CallsEntries(P, entries, cpu, p) {
      CallsEntriesLater(P, entries, cpu, p, s);
    } else {
      CallsEntriesLater(Q, entries, cpu, q, t);
    }
  }

  ghost predicate RelatedThreads(l: Link, s: Thread, t: Thread) {
    && l.rel(s.pc, t.pc)
    && |s.stack| == |t.stack|
    && forall k :: 0 <= k < |s.stack| ==> l.rel(s.stack[k], t.stack[k])
  }

  ghost predicate Related<D>(l: Link, p: Process<D>, q: Process<D>) {
    && p.data == q.data
    && |p.threads| == |q.threads|
    && forall i :: 0 <= i < |p.threads| ==> RelatedThreads(l, p.threads[i], q.threads[i])
  }

  function Flip(l: Link): Link {
    Link((b, a) => l.rel(a, b), (b, a) => l.rank(a, b))
  }

  lemma FlipBisimulates(P: Image, Q: Image, l: Link)
    requires Bisimulates(P, Q, l)
    ensures Bisimulates(Q, P, Flip(l))
  {
    var f := Flip(l);
    forall b, a | f.rel(b, a)
      ensures Matches(Q, P, f, b, a)
    {
      assert l.rel(a, b);
      var i, j := Fetch(P.mem, a), Fetch(Q.mem, b);
      if i.DoJump? && l.rel(i.target, b) && l.rank(i.target, b) < l.rank(a, b) {
        assert f.rel(b, i.target) && f.rank(b, i.target) < f.rank(b, a);
      }
    }
  }

  lemma FlipRelated<D>(l: Link, p: Process<D>, q: Process<D>)
    requires Related(l, p, q)
    ensures Related(Flip(l), q, p)
  {
    forall i | 0 <= i < |q.threads|
      ensures RelatedThreads(Flip(l), q.threads[i], p.threads[i])
    {
      assert RelatedThreads(l, p.threads[i], q.threads[i]);
    }
  }

  /** Each step of P is matched by finitely many steps of the same thread of Q. */
  lemma {:induction false} StepMatched<D>(P: Image, Q: Image, l: Link, entries: set<int>, cpu: Cpu<D>, p: Process<D>, q: Process<D>, tid: nat)
    returns (schedule: seq<nat>)
    requires Bisimulates(P, Q, l) && SharesEntries(P, Q, l, entries) && Related(l, p, q)
    requires PointersKnown(P, p, Q, q, cpu, entries)
    requires Step(P, cpu, p, tid).Moved?
    ensures Run(Q, cpu, q, schedule).Moved?
    ensures Run(Q, cpu, q, schedule).events == Step(P, cpu, p, tid).events
    ensures Related(l, Step(P, cpu, p, tid).proc, Run(Q, cpu, q, schedule).proc)
    decreases l.rank(p.threads[tid].pc, q.threads[tid].pc)
  {
    hide CallsEntries;
    var a, b := p.threads[tid].pc, q.threads[tid].pc;
    assert RelatedThreads(l, p.threads[tid], q.threads[tid]);
    assert Matches(P, Q, l, a, b);
    var i, j := Fetch(P.mem, a), Fetch(Q.mem, b);
    if i.DoJump? && l.rel(i.target, b) && l.rank(i.target, b) < l.rank(a, b) {
      schedule := [];
    } else if j.DoJump? && l.rel(a, j.target) && l.rank(a, j.target) < l.rank(a, b) {
      var q' := Step(Q, cpu, q, tid).proc;
      assert Related(l, p, q');
      RunOne(Q, cpu, q, tid);
      assert Run(P, cpu, p, []).proc == p;
      PointersKnownLater(P, p, Q, q, cpu, entries, [], [tid]);
      var rest := StepMatched(P, Q, l, entries, cpu, p, q', tid);
      schedule := [tid] + rest;
      assert schedule[1..] == rest;
    } else {
      schedule := [tid];
      PointersNow(P, Q, l, entries, cpu, p, q, tid);
      StepsTogether(P, Q, l, entries, cpu, p, q, tid);
      RunOne(Q, cpu, q, tid);
    }
  }

  lemma PointersNow<D>(P: Image, Q: Image, l: Link, entries: set<int>, cpu: Cpu<D>, p: Process<D>, q: Process<D>, tid: nat)
    requires PointersKnown(P, p, Q, q, cpu, entries) && p.data == q.data && tid < |p.threads| == |q.threads|
    ensures Fetch(P.mem, p.threads[tid].pc).DoPick? && Fetch(Q.mem, q.threads[tid].pc).DoPick? ==> cpu.pick(tid, p.data) in entries
  {
    hide CallsEntries, Fetch;
    if CallsEntries(P, entries, cpu, p) {
      CallsEntriesNow(P, entries, cpu, p);
    } else {
      CallsEntriesNow(Q, entries, cpu, q);
    }
  }

  lemma StepsTogether<D>(P: Image, Q: Image, l: Link, entries: set<int>, cpu: Cpu<D>, p: Process<D>, q: Process<D>, tid: nat)
    requires SharesEntries(P, Q, l, entries) && Related(l, p, q) && Step(P, cpu, p, tid).Moved?
    requires Matches(P, Q, l, p.threads[tid].pc, q.threads[tid].pc)
    requires Fetch(P.mem, p.threads[tid].pc).DoPick? && Fetch(Q.mem, q.threads[tid].pc).DoPick? ==> cpu.pick(tid, p.data) in entries
    requires var i := Fetch(P.mem, p.threads[tid].pc);
      !(i.DoJump? && l.rel(i.target, q.threads[tid].pc) && l.rank(i.target, q.threads[tid].pc) < l.rank(p.threads[tid].pc, q.threads[tid].pc))
    requires var j := Fetch(Q.mem, q.threads[tid].pc);
      !(j.DoJump? && l.rel(p.threads[tid].pc, j.target) && l.rank(p.threads[tid].pc, j.target) < l.rank(p.threads[tid].pc, q.threads[tid].pc))
    ensures Step(Q, cpu, q, tid).Moved?
    ensures Step(Q, cpu, q, tid).events == Step(P, cpu, p, tid).events
    ensures Related(l, Step(P, cpu, p, tid).proc, Step(Q, cpu, q, tid).proc)
  {
    hide Fetch, NameOf;
    var s, t := p.threads[tid], q.threads[tid];
    assert RelatedThreads(l, s, t);
    var s', t' := Step(P, cpu, p, tid).proc.threads[tid], Step(Q, cpu, q, tid).proc.threads[tid];
    assert RelatedThreads(l, s', t');
  }

  /** Every run of P has a run of Q with the same trace, ending related. */
  lemma {:induction false} RunMatched<D>(P: Image, Q: Image, l: Link, entries: set<int>, cpu: Cpu<D>, p: Process<D>, q: Process<D>, schedule: seq<nat>)
    returns (schedule': seq<nat>)
    requires Bisimulates(P, Q, l) && SharesEntries(P, Q, l, entries) && Related(l, p, q)
    requires PointersKnown(P, p, Q, q, cpu, entries)
    requires Run(P, cpu, p, schedule).Moved?
    ensures Run(Q, cpu, q, schedule').Moved?
    ensures Run(Q, cpu, q, schedule').events == Run(P, cpu, p, schedule).events
    ensures Related(l, Run(P, cpu, p, schedule).proc, Run(Q, cpu, q, schedule').proc)
    decreases |schedule|
  {
    hide Bisimulates, SharesEntries, Related, PointersKnown;
    if schedule == [] {
      schedule' := [];
    } else {
      var first := StepMatched(P, Q, l, entries, cpu, p, q, schedule[0]);
      var p', q' := Step(P, cpu, p, schedule[0]).proc, Run(Q, cpu, q, first).proc;
      RunOne(P, cpu, p, schedule[0]);
      PointersKnownLater(P, p, Q, q, cpu, entries, [schedule[0]], first);
      var rest := RunMatched(P, Q, l, entries, cpu, p', q', schedule[1..]);
      schedule' := first + rest;
      RunAppend(Q, cpu, q, first, rest);
    }
  }

  lemma {:induction false} RunAppend<D>(img: Image, cpu: Cpu<D>, p: Process<D>, s: seq<nat>, t: seq<nat>)
    requires Run(img, cpu, p, s).Moved?
    requires Run(img, cpu, Run(img, cpu, p, s).proc, t).Moved?
    ensures Run(img, cpu, p, s + t).Moved?
    ensures Run(img, cpu, p, s + t).proc == Run(img, cpu, Run(img, cpu, p, s).proc, t).proc
    ensures Run(img, cpu, p, s + t).events == Run(img, cpu, p, s).events + Run(img, cpu, Run(img, cpu, p, s).proc, t).events
    decreases |s|
  {
    if s == [] {
      assert s + t == t;
    } else {
      var p' := Step(img, cpu, p, s[0]).proc;
      RunAppend(img, cpu, p', s[1..], t);
      assert (s + t)[1..] == s[1..] + t && (s + t)[0] == s[0];
      var mid := Run(img, cpu, p', s[1..]);
      EventsAssociative(Step(img, cpu, p, s[0]).events, mid.events, Run(img, cpu, mid.proc, t).events);
    }
  }

  lemma EventsAssociative(a: seq<Event>, b: seq<Event>, c: seq<Event>)
    ensures a + b + c == a + (b + c)
  {
  }

  /** Related processes have the same traces. */
  lemma SameTraces<D>(P: Image, Q: Image, l: Link, entries: set<int>, cpu: Cpu<D>, p: Process<D>, q: Process<D>)
    requires Bisimulates(P, Q, l) && SharesEntries(P, Q, l, entries) && Related(l, p, q)
    requires CallsEntries(P, entries, cpu, p)
    ensures SameBehaviour(P, p, Q, q, cpu)
  {
    hide CallsEntries;
    FlipBisimulates(P, Q, l);
    FlipRelated(l, p, q);
    assert SharesEntries(Q, P, Flip(l), entries);
    forall trace
      ensures HasTrace(P, cpu, p, trace) <==> HasTrace(Q, cpu, q, trace)
    {
      if HasTrace(P, cpu, p, trace) {
        var schedule :| Run(P, cpu, p, schedule).Moved? && Run(P, cpu, p, schedule).events == trace;
        var _ := RunMatched(P, Q, l, entries, cpu, p, q, schedule);
      }
      if HasTrace(Q, cpu, q, trace) {
        var schedule :| Run(Q, cpu, q, schedule).Moved? && Run(Q, cpu, q, schedule).events == trace;
        var _ := RunMatched(Q, P, Flip(l), entries, cpu, q, p, schedule);
      }
    }
  }
}
