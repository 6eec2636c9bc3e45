/** The LLVM pass that routes stored function pointers through a hook
    (hook-function-pointers-llvm/HookFunctionPointers.cpp), on a small
    intermediate representation with control flow. */
module HookPass {

  datatype Operand = FuncRef(f: int) | Local(r: int) | Const(n: int)

  /** `Hook` calls the hook on a function and defines a fresh local; `Other`
      stands for every instruction that is neither a store nor a hook call. */
  datatype Instr =
    | Store(val: Operand, ptr: Operand)
    | Hook(dst: int, arg: Operand)
    | Other(dst: int, opcode: int, args: seq<Operand>)

  /** An original instruction and the hook calls inserted in front of it; slots
      keep their places while the pass inserts. */
  datatype Slot = Slot(before: seq<Instr>, instr: Instr)

  datatype Terminator = Goto(b: int) | If(cond: Operand, yes: int, no: int) | Return

  datatype Block = Block(slots: seq<Slot>, end: Terminator)

  type Func = seq<Block>

  /** An instruction of the function: block and slot. */
  datatype Point = Point(b: nat, s: nat)

  predicate ValidPoint(fn: Func, p: Point) {
    p.b < |fn| && p.s < |fn[p.b].slots|
  }

  function SlotAt(fn: Func, p: Point): Slot
    requires ValidPoint(fn, p)
  {
    fn[p.b].slots[p.s]
  }

  /** A store of a function; `skip` are the intrinsics and library functions. */
  predicate Wanted(i: Instr, skip: set<int>) {
    i.Store? && i.val.FuncRef? && i.val.f !in skip
  }

  predicate WantedAt(fn: Func, skip: set<int>, p: Point) {
    ValidPoint(fn, p) && Wanted(SlotAt(fn, p).instr, skip)
  }

  /** The operand the second loop picks: the last one that is a function. */
  function Picked(i: Instr): Operand
    requires i.Store? && i.val.FuncRef?
  {
    if i.ptr.FuncRef? then i.ptr else i.val
  }

  function Replaced(o: Operand, what: Operand, substitute: Operand): Operand {
    if o == what then substitute else o
  }

  /** A slot with its function pointer routed through the hook. */
  function Hooked(slot: Slot, name: int): Slot
    requires slot.instr.Store? && slot.instr.val.FuncRef?
  {
    var p := Picked(slot.instr);
    Slot(slot.before + [Hook(name, p)],
         Store(Replaced(slot.instr.val, p, Local(name)), Replaced(slot.instr.ptr, p, Local(name))))
  }

  function SetSlot(fn: Func, p: Point, slot: Slot): Func
    requires ValidPoint(fn, p)
  {
    fn[p.b := fn[p.b].(slots := fn[p.b].slots[p.s := slot])]
  }

  predicate SameShape(f: Func, g: Func) {
    |f| == |g| && forall b :: 0 <= b < |f| ==> |f[b].slots| == |g[b].slots| && f[b].end == g[b].end
  }

  /** `g` is `f` with the stores at the named points hooked, each through its
      own new local, and nothing else changed. */
  ghost predicate HookedAt(f: Func, g: Func, names: map<Point, int>, skip: set<int>, base: int, limit: int) {
    && SameShape(f, g)
    && (forall p :: p in names ==> WantedAt(f, skip, p) && base <= names[p] < limit)
    && (forall p :: p in names ==> SlotAt(g, p) == Hooked(SlotAt(f, p), names[p]))
    && (forall p, q :: p in names && q in names && names[p] == names[q] ==> p == q)
    && (forall p :: ValidPoint(f, p) && p !in names ==> SlotAt(g, p) == SlotAt(f, p))
  }

  lemma PointOrNot(s: set<Point>)
    ensures s == {} || exists x :: x in s
  {
    if forall x :: x !in s {
      assert s == {};
    }
  }

  lemma HookOneMore(f: Func, g: Func, names: map<Point, int>, skip: set<int>, base: int, next: int, p: Point)
    requires HookedAt(f, g, names, skip, base, next) && base <= next
    requires p !in names && WantedAt(f, skip, p)
    ensures ValidPoint(g, p) && SlotAt(g, p) == SlotAt(f, p)
    ensures HookedAt(f, SetSlot(g, p, Hooked(SlotAt(f, p), next)), names[p := next], skip, base, next + 1)
  {
    var g' := SetSlot(g, p, Hooked(SlotAt(f, p), next));
    forall q | ValidPoint(f, q) && q != p
      ensures SlotAt(g', q) == SlotAt(g, q)
    {
    }
  }

  /** The first loop: the wanted stores, in program order. */
  method CollectUses(fn: Func, skip: set<int>) returns (uses: set<Point>)
    ensures forall p :: p in uses <==> WantedAt(fn, skip, p)
  {
    uses := {};
    var b := 0;
    while b < |fn|
      invariant 0 <= b <= |fn|
      invariant forall p :: p in uses <==> WantedAt(fn, skip, p) && p.b < b
    {
      var s := 0;
      while s < |fn[b].slots|
        invariant 0 <= s <= |fn[b].slots|
        invariant forall p :: p in uses <==> WantedAt(fn, skip, p) && (p.b < b || (p.b == b && p.s < s))
      {
        var i := fn[b].slots[s].instr;
        assert SlotAt(fn, Point(b, s)).instr == i;
        if i.Store? && i.val.FuncRef? {
          if i.val.f !in skip {
            uses := uses + {Point(b, s)};
          }
        }
        s := s + 1;
      }
      b := b + 1;
    }
  }

  class IrFunction {
    var body: Func

    constructor (body: Func)
      ensures this.body == body
    {
      this.body := body;
    }

    /** run: collect the stores, then hook each in place, in any order. New
        locals are numbered from `base`. */
    method RunPass(skip: set<int>, base: int) returns (ghost names: map<Point, int>, limit: int)
      modifies this
      ensures HookedAt(old(body), body, names, skip, base, limit)
      ensures forall p :: p in names <==> WantedAt(old(body), skip, p)
      ensures base <= limit
    {
      hide HookedAt;
      var uses := CollectUses(body, skip);
      names, limit := map[], base;
      NothingHooked(body, skip, base);
      ghost var original := body;
      ghost var all := uses;
      while uses != {}
        invariant uses <= all && base <= limit
        invariant forall p :: p in names <==> p in all && p !in uses
        invariant HookedAt(original, body, names, skip, base, limit)
        decreases uses
      {
        PointOrNot(uses);
        var p :| p in uses;
        uses := uses - {p};
        HookOneMore(original, body, names, skip, base, limit, p);
        Instrument(p, limit);
        names := names[p := limit];
        limit := limit + 1;
      }
    }

    /** The body of the second loop. */
    method Instrument(p: Point, name: int)
      requires ValidPoint(body, p) && SlotAt(body, p).instr.Store? && SlotAt(body, p).instr.val.FuncRef?
      modifies this
      ensures body == SetSlot(old(body), p, Hooked(SlotAt(old(body), p), name))
    {
      var slot := body[p.b].slots[p.s];
      var operands := [slot.instr.val, slot.instr.ptr];
      var picked := slot.instr.val;
      var u := 0;
      while u < 2
        invariant 0 <= u <= 2
        invariant picked == if u < 2 then slot.instr.val else Picked(slot.instr)
      {
        if operands[u].FuncRef? {
          picked := operands[u];
        }
        u := u + 1;
      }
      var call := Hook(name, picked);
      var rewritten := Store(Replaced(slot.instr.val, picked, Local(name)), Replaced(slot.instr.ptr, picked, Local(name)));
      body := body[p.b := body[p.b].(slots := body[p.b].slots[p.s := Slot(slot.before + [call], rewritten)])];
    }
  }

  lemma NothingHooked(f: Func, skip: set<int>, base: int)
    ensures HookedAt(f, f, map[], skip, base, base)
  {
  }

  // What the pass achieves

  /** The store of `slot` goes through a hook call on exactly its function. */
  predicate ValueHooked(slot: Slot, f: int) {
    && slot.before != [] && slot.before[|slot.before| - 1].Hook?
    && slot.before[|slot.before| - 1].arg == FuncRef(f)
    && slot.instr.Store? && slot.instr.val == Local(slot.before[|slot.before| - 1].dst)
  }

  /** A store whose destination is another function. */
  predicate StoresIntoFunction(i: Instr) {
    i.Store? && i.ptr.FuncRef? && i.ptr != i.val
  }

  /** Every wanted store gets one hook call more, and it is its own function
      that is hooked exactly when the destination is no other function. */
  lemma EachWantedHookedOnce(f: Func, g: Func, names: map<Point, int>, skip: set<int>, base: int, limit: int, p: Point)
    requires HookedAt(f, g, names, skip, base, limit)
    requires forall q :: q in names <==> WantedAt(f, skip, q)
    requires ValidPoint(f, p)
    ensures ValidPoint(g, p)
    ensures |SlotAt(g, p).before| == |SlotAt(f, p).before| + if WantedAt(f, skip, p) then 1 else 0
    ensures !WantedAt(f, skip, p) ==> SlotAt(g, p) == SlotAt(f, p)
    ensures WantedAt(f, skip, p) ==>
      (ValueHooked(SlotAt(g, p), SlotAt(f, p).instr.val.f) <==> !StoresIntoFunction(SlotAt(f, p).instr))
  {
  }

  /** Stores of intrinsics and library functions, stores of anything but a
      function, and all other instructions stay as they were. */
  lemma OthersStay(f: Func, g: Func, names: map<Point, int>, skip: set<int>, base: int, limit: int, p: Point)
    requires HookedAt(f, g, names, skip, base, limit) && ValidPoint(f, p)
    requires !SlotAt(f, p).instr.Store? || !SlotAt(f, p).instr.val.FuncRef? || SlotAt(f, p).instr.val.f in skip
    ensures ValidPoint(g, p) && SlotAt(g, p) == SlotAt(f, p)
  {
  }

  /** Every other store of a function is hooked: a call of the hook on the function
      in front, and its answer stored, when the destination is no function. */
  lemma FunctionStoresHooked(f: Func, g: Func, names: map<Point, int>, skip: set<int>, base: int, limit: int, p: Point)
    requires HookedAt(f, g, names, skip, base, limit) && ValidPoint(f, p)
    requires forall q :: q in names <==> WantedAt(f, skip, q)
    requires SlotAt(f, p).instr.Store? && SlotAt(f, p).instr.val.FuncRef? && SlotAt(f, p).instr.val.f !in skip
    requires !SlotAt(f, p).instr.ptr.FuncRef?
    ensures ValidPoint(g, p) && exists name ::
      && base <= name < limit
      && SlotAt(g, p) == Slot(SlotAt(f, p).before + [Hook(name, SlotAt(f, p).instr.val)], Store(Local(name), SlotAt(f, p).instr.ptr))
  {
  }

  /** What a second run would hook: exactly the stores into another function. */
  lemma SecondRunHooks(f: Func, g: Func, names: map<Point, int>, skip: set<int>, base: int, limit: int, p: Point)
    requires HookedAt(f, g, names, skip, base, limit)
    requires forall q :: q in names <==> WantedAt(f, skip, q)
    ensures WantedAt(g, skip, p) <==> WantedAt(f, skip, p) && StoresIntoFunction(SlotAt(f, p).instr)
  {
    assert SameShape(f, g);
    if ValidPoint(f, p) && p !in names {
      assert SlotAt(g, p) == SlotAt(f, p);
    }
  }

  /** The pass is idempotent exactly on functions without such stores. */
  lemma IdempotentExactly(f: Func, g: Func, names: map<Point, int>, skip: set<int>, base: int, limit: int)
    requires HookedAt(f, g, names, skip, base, limit)
    requires forall q :: q in names <==> WantedAt(f, skip, q)
    ensures (forall p :: !WantedAt(g, skip, p)) <==>
      (forall p :: WantedAt(f, skip, p) ==> !StoresIntoFunction(SlotAt(f, p).instr))
  {
    forall p
      ensures WantedAt(g, skip, p) <==> WantedAt(f, skip, p) && StoresIntoFunction(SlotAt(f, p).instr)
    {
      SecondRunHooks(f, g, names, skip, base, limit, p);
    }
  }

  /** One store of function 1 into function 2. */
  function IntoFunction(): Func { [Block([Slot([], Store(FuncRef(1), FuncRef(2)))], Return)] }

  /** Every run of the pass on that function hooks the destination, leaves the
      stored function as it is, and would hook it again. */
  lemma NotIdempotent(g: Func, names: map<Point, int>, base: int, limit: int)
    requires HookedAt(IntoFunction(), g, names, {}, base, limit)
    requires forall q :: q in names <==> WantedAt(IntoFunction(), {}, q)
    ensures WantedAt(g, {}, Point(0, 0)) && !ValueHooked(SlotAt(g, Point(0, 0)), 1)
    ensures SlotAt(g, Point(0, 0)).instr.val == FuncRef(1)
  {
    var p := Point(0, 0);
    assert WantedAt(IntoFunction(), {}, p);
    SecondRunHooks(IntoFunction(), g, names, {}, base, limit, p);
    assert SlotAt(g, p) == Hooked(SlotAt(IntoFunction(), p), names[p]);
  }

  // Meaning

  type Memory = map<int, int>

  /** Where functions live, what the hook returns, and what the other
      instructions do to their result and to memory. */
  datatype World = World(address: int -> int, hook: int -> int, other: (int, seq<int>, Memory) -> (int, Memory))

  datatype State = State(locals: map<int, int>, mem: Memory)

  function Get(locals: map<int, int>, r: int): int { if r in locals then locals[r] else 0 }

  function Eval(w: World, s: State, o: Operand): int {
    match o
    case FuncRef(f) => w.address(f)
    case Local(r) => Get(s.locals, r)
    case Const(n) => n
  }

  function EvalAll(w: World, s: State, os: seq<Operand>): (vs: seq<int>)
    ensures |vs| == |os|
  {
    seq(|os|, i requires 0 <= i < |os| => Eval(w, s, os[i]))
  }

  function Exec(w: World, s: State, i: Instr): State {
    match i
    case Store(v, p) => s.(mem := s.mem[Eval(w, s, p) := Eval(w, s, v)])
    case Hook(d, a) => s.(locals := s.locals[d := w.hook(Eval(w, s, a))])
    case Other(d, op, args) =>
      var r := w.other(op, EvalAll(w, s, args), s.mem);
      State(s.locals[d := r.0], r.1)
  }

  function ExecAll(w: World, s: State, code: seq<Instr>): State {
    if code == [] then s else Exec(w, ExecAll(w, s, code[..|code| - 1]), code[|code| - 1])
  }

  function ExecSlots(w: World, s: State, slots: seq<Slot>): State {
    if slots == [] then s
    else
      var last := slots[|slots| - 1];
      Exec(w, ExecAll(w, ExecSlots(w, s, slots[..|slots| - 1]), last.before), last.instr)
  }

  function NextBlock(w: World, s: State, t: Terminator): int {
    match t
    case Goto(b) => b
    case If(c, yes, no) => if Eval(w, s, c) != 0 then yes else no
    case Return => -1
  }

  datatype Config = Config(block: int, state: State)

  /** At most `n` blocks from block `c.block`; leaving the function ends the run. */
  function Run(w: World, fn: Func, c: Config, n: nat): Config
    decreases n
  {
    if n == 0 || !(0 <= c.block < |fn|) then c
    else
      var s := ExecSlots(w, c.state, fn[c.block].slots);
      Run(w, fn, Config(NextBlock(w, s, fn[c.block].end), s), n - 1)
  }

  predicate OperandBelow(o: Operand, base: int) { o.Local? ==> o.r < base }

  predicate InstrBelow(i: Instr, base: int) {
    match i
    case Store(v, p) => OperandBelow(v, base) && OperandBelow(p, base)
    case Hook(d, a) => d < base && OperandBelow(a, base)
    case Other(d, _, args) => d < base && forall k :: 0 <= k < |args| ==> OperandBelow(args[k], base)
  }

  predicate SlotBelow(s: Slot, base: int) {
    InstrBelow(s.instr, base) && forall k :: 0 <= k < |s.before| ==> InstrBelow(s.before[k], base)
  }

  /** The function uses no local from `base` on. */
  predicate FuncBelow(fn: Func, base: int) {
    forall b :: 0 <= b < |fn| ==>
      && (fn[b].end.If? ==> OperandBelow(fn[b].end.cond, base))
      && forall s :: 0 <= s < |fn[b].slots| ==> SlotBelow(fn[b].slots[s], base)
  }

  /** The same memory, and the same values of the old locals. */
  ghost predicate Alike(s: State, t: State, base: int) {
    s.mem == t.mem && AgreeBelow(s.locals, t.locals, base)
  }

  ghost predicate AgreeBelow(l: map<int, int>, m: map<int, int>, base: int) {
    forall r :: r < base ==> Get(l, r) == Get(m, r)
  }

  // Two worlds: functions as they were, and some of them moved

  /** The operand means the same in both worlds. */
  predicate Fits(w: World, v: World, o: Operand) { o.FuncRef? ==> w.address(o.f) == v.address(o.f) }

  ghost predicate InstrFits(w: World, v: World, i: Instr) {
    match i
    case Store(x, p) => Fits(w, v, x) && Fits(w, v, p)
    case Hook(_, a) => Fits(w, v, a) && forall x :: w.hook(x) == v.hook(x)
    case Other(_, _, args) => forall k :: 0 <= k < |args| ==> Fits(w, v, args[k])
  }

  /** A function that may have moved is mentioned by a hooked store only, and as
      what it stores, not where. */
  ghost predicate SlotFits(w: World, v: World, hooked: bool, slot: Slot) {
    && (forall k :: 0 <= k < |slot.before| ==> InstrFits(w, v, slot.before[k]))
    && if hooked && slot.instr.Store? then StoresIntoFunction(slot.instr) ==> Fits(w, v, slot.instr.val)
       else InstrFits(w, v, slot.instr)
  }

  ghost predicate FuncFits(w: World, v: World, names: map<Point, int>, fn: Func) {
    && (forall b :: 0 <= b < |fn| && fn[b].end.If? ==> Fits(w, v, fn[b].end.cond))
    && (forall p :: ValidPoint(fn, p) ==> SlotFits(w, v, p in names, SlotAt(fn, p)))
  }

  /** The other instructions do the same in both worlds. */
  ghost predicate SameElse(w: World, v: World) {
    forall op, args, m :: w.other(op, args, m) == v.other(op, args, m)
  }

  /** The hook answers with the place a function has in the first world. */
  ghost predicate HookAnswers(w: World, v: World) {
    forall f :: v.hook(v.address(f)) == w.address(f)
  }

  lemma EvalAlike(w: World, v: World, s: State, t: State, o: Operand, base: int)
    requires Alike(s, t, base) && OperandBelow(o, base) && Fits(w, v, o)
    ensures Eval(w, s, o) == Eval(v, t, o)
  {
  }

  lemma DefineAlike(l: map<int, int>, m: map<int, int>, d: int, v: int, base: int)
    requires AgreeBelow(l, m, base)
    ensures AgreeBelow(l[d := v], m[d := v], base)
  {
    var l', m' := l[d := v], m[d := v];
    forall r | r < base
      ensures Get(l', r) == Get(m', r)
    {
      assert Get(l, r) == Get(m, r);
    }
  }

  lemma ExecAlike(w: World, v: World, s: State, t: State, i: Instr, base: int)
    requires Alike(s, t, base) && InstrBelow(i, base) && InstrFits(w, v, i) && SameElse(w, v)
    ensures Alike(Exec(w, s, i), Exec(v, t, i), base)
  {
    match i
    case Store(x, p) =>
      EvalAlike(w, v, s, t, x, base);
      EvalAlike(w, v, s, t, p, base);
    case Hook(d, a) =>
      EvalAlike(w, v, s, t, a, base);
      DefineAlike(s.locals, t.locals, d, w.hook(Eval(w, s, a)), base);
    case Other(d, op, args) =>
      forall k | 0 <= k < |args|
        ensures Eval(w, s, args[k]) == Eval(v, t, args[k])
      {
        EvalAlike(w, v, s, t, args[k], base);
      }
      var xs, ys := EvalAll(w, s, args), EvalAll(v, t, args);
      assert forall k :: 0 <= k < |args| ==> xs[k] == ys[k];
      assert xs == ys;
      assert w.other(op, xs, s.mem) == v.other(op, ys, t.mem);
      DefineAlike(s.locals, t.locals, d, w.other(op, xs, s.mem).0, base);
  }

  lemma {:induction false} ExecAllAlike(w: World, v: World, s: State, t: State, code: seq<Instr>, base: int)
    requires Alike(s, t, base) && SameElse(w, v)
    requires forall k :: 0 <= k < |code| ==> InstrBelow(code[k], base) && InstrFits(w, v, code[k])
    ensures Alike(ExecAll(w, s, code), ExecAll(v, t, code), base)
    decreases |code|
  {
    if code != [] {
      var init := code[..|code| - 1];
      ExecAllAlike(w, v, s, t, init, base);
      ExecAlike(w, v, ExecAll(w, s, init), ExecAll(v, t, init), code[|code| - 1], base);
    }
  }

  /** A hook that answers with the old place of the function makes the hooked
      store the old store. */
  lemma HookedStoreAlike(w: World, v: World, s: State, t: State, slot: Slot, name: int, base: int)
    requires HookAnswers(w, v) && SameElse(w, v) && SlotFits(w, v, true, slot)
    requires Alike(s, t, base) && SlotBelow(slot, base) && base <= name
    requires slot.instr.Store? && slot.instr.val.FuncRef?
    ensures Alike(Exec(w, ExecAll(w, s, slot.before), slot.instr),
                  Exec(v, ExecAll(v, t, Hooked(slot, name).before), Hooked(slot, name).instr), base)
  {
    hide InstrFits, SameElse;
    var h := Hooked(slot, name);
    ExecAllAlike(w, v, s, t, slot.before, base);
    assert h.before[..|h.before| - 1] == slot.before;
    var s', t' := ExecAll(w, s, slot.before), ExecAll(v, t, slot.before);
    var t'' := ExecAll(v, t, h.before);
    assert t'' == Exec(v, t', Hook(name, Picked(slot.instr)));
    var i := slot.instr;
    assert w.address(i.val.f) == v.hook(v.address(i.val.f));
    if i.ptr.FuncRef? {
      assert w.address(i.ptr.f) == v.hook(v.address(i.ptr.f));
    } else {
      EvalAlike(w, v, s', t', i.ptr, base);
    }
  }

  /** The slot as it was, or hooked, and mentioning moved functions accordingly. */
  ghost predicate SameOrHooked(w: World, v: World, a: Slot, b: Slot, base: int) {
    || (b == a && SlotFits(w, v, false, a))
    || (&& a.instr.Store? && a.instr.val.FuncRef? && SlotFits(w, v, true, a)
        && exists name :: base <= name && b == Hooked(a, name))
  }

  lemma {:induction false} SlotsAlike(w: World, v: World, s: State, t: State, a: seq<Slot>, b: seq<Slot>, base: int)
    requires HookAnswers(w, v) && SameElse(w, v)
    requires Alike(s, t, base) && |a| == |b|
    requires forall k :: 0 <= k < |a| ==> SlotBelow(a[k], base)
    requires forall k :: 0 <= k < |a| ==> SameOrHooked(w, v, a[k], b[k], base)
    ensures Alike(ExecSlots(w, s, a), ExecSlots(v, t, b), base)
    decreases |a|
  {
    hide InstrFits, SameElse, HookAnswers;
    if a != [] {
      var n := |a| - 1;
      SlotsAlike(w, v, s, t, a[..n], b[..n], base);
      var s', t' := ExecSlots(w, s, a[..n]), ExecSlots(v, t, b[..n]);
      if b[n] == a[n] && SlotFits(w, v, false, a[n]) {
        ExecAllAlike(w, v, s', t', a[n].before, base);
        ExecAlike(w, v, ExecAll(w, s', a[n].before), ExecAll(v, t', a[n].before), a[n].instr, base);
      } else {
        var name :| base <= name && b[n] == Hooked(a[n], name);
        HookedStoreAlike(w, v, s', t', a[n], name, base);
      }
    }
  }

  /** With a hook that answers with the old places, a rewritten function in a
      world where functions have moved runs through the same blocks and reaches
      the same memory as the function did, however long they run: no pointer to a
      moved function ever reaches memory. */
  lemma {:induction false} PassHidesMoves(w: World, v: World, f: Func, g: Func, names: map<Point, int>, skip: set<int>,
                                          base: int, limit: int, c: Config, d: Config, n: nat)
    requires HookAnswers(w, v) && SameElse(w, v) && FuncFits(w, v, names, f)
    requires HookedAt(f, g, names, skip, base, limit) && FuncBelow(f, base)
    requires c.block == d.block && Alike(c.state, d.state, base)
    ensures Run(w, f, c, n).block == Run(v, g, d, n).block
    ensures Run(w, f, c, n).state.mem == Run(v, g, d, n).state.mem
    decreases n
  {
    hide InstrFits, SameElse, HookAnswers;
    if n > 0 && 0 <= c.block < |f| {
      var b := c.block;
      SlotsHooked(w, v, f, g, names, skip, base, limit, b);
      SlotsAlike(w, v, c.state, d.state, f[b].slots, g[b].slots, base);
      var s, t := ExecSlots(w, c.state, f[b].slots), ExecSlots(v, d.state, g[b].slots);
      if f[b].end.If? {
        EvalAlike(w, v, s, t, f[b].end.cond, base);
      }
      PassHidesMoves(w, v, f, g, names, skip, base, limit,
                     Config(NextBlock(w, s, f[b].end), s), Config(NextBlock(v, t, g[b].end), t), n - 1);
    }
  }

  lemma SlotsHooked(w: World, v: World, f: Func, g: Func, names: map<Point, int>, skip: set<int>, base: int, limit: int, b: nat)
    requires HookedAt(f, g, names, skip, base, limit) && FuncFits(w, v, names, f) && b < |f|
    ensures b < |g| && |g[b].slots| == |f[b].slots| && g[b].end == f[b].end
    ensures forall k :: 0 <= k < |f[b].slots| ==> SameOrHooked(w, v, f[b].slots[k], g[b].slots[k], base)
  {
    hide SlotFits;
    forall k | 0 <= k < |f[b].slots|
      ensures SameOrHooked(w, v, f[b].slots[k], g[b].slots[k], base)
    {
      var p := Point(b, k);
      assert ValidPoint(f, p) && SlotAt(f, p) == f[b].slots[k] && SlotAt(g, p) == g[b].slots[k];
      if p in names {
        assert SlotAt(g, p) == Hooked(SlotAt(f, p), names[p]);
      }
    }
  }

  /** With a hook that returns its argument, the function and its rewrite run
      through the same blocks and reach the same memory. */
  lemma PassPreservesMeaning(w: World, f: Func, g: Func, names: map<Point, int>, skip: set<int>,
                             base: int, limit: int, c: Config, d: Config, n: nat)
    requires forall x :: w.hook(x) == x
    requires HookedAt(f, g, names, skip, base, limit) && FuncBelow(f, base)
    requires c.block == d.block && Alike(c.state, d.state, base)
    ensures Run(w, f, c, n).block == Run(w, g, d, n).block
    ensures Run(w, f, c, n).state.mem == Run(w, g, d, n).state.mem
  {
    hide HookedAt, FuncBelow, Run, Alike;
    PassHidesMoves(w, w, f, g, names, skip, base, limit, c, d, n);
  }
}
