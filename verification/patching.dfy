/** Patch generation (src/extract_machine_code.cpp): the direct calls of
    functions on the stack that lead to moved functions are re-encoded. */
module Patching {
  import opened Words
  import opened Rel32
  import opened Code
  import opened Records
  import opened CallSites
  import opened CallStack

  /** The site at `a` is in a function on the stack and calls a moved one. */
  predicate NeedsPatch(sites: Table, moved: Funcs, onStack: Funcs, a: int) {
    CallsMoved(sites, moved, a) && sites[a].belongedFunc in onStack
  }

  /** From the instruction after the call to the moved callee. */
  function Distance(sites: Table, moved: Funcs, a: int): int
    requires a in sites && sites[a].target in moved
  {
    moved[sites[a].target].movedAddr - sites[a].nextAddr
  }

  function Patch(sites: Table, moved: Funcs, a: int): Record
    requires a in sites && sites[a].target in moved
  {
    Record(a, [0xE8] + Rel32Bytes(Distance(sites, moved, a)))
  }

  predicate CallsMoved(sites: Table, moved: Funcs, a: int) {
    a in sites && sites[a].target in moved
  }

  predicate AllCallMoved(sites: Table, moved: Funcs, addrs: seq<int>) {
    forall i :: 0 <= i < |addrs| ==> CallsMoved(sites, moved, addrs[i])
  }

  /** The records of the patches at `addrs`. */
  function Patches(sites: Table, moved: Funcs, addrs: seq<int>): (rs: seq<Record>)
    requires AllCallMoved(sites, moved, addrs)
    ensures |rs| == |addrs|
    ensures forall i :: 0 <= i < |addrs| ==> rs[i] == Patch(sites, moved, addrs[i])
  {
    seq(|addrs|, i requires 0 <= i < |addrs| => Patch(sites, moved, addrs[i]))
  }

  /** The subtraction of addresses stays within `long`. */
  ghost predicate NearEnough(sites: Table, moved: Funcs) {
    forall a :: a in sites && sites[a].target in moved ==> IsLong(Distance(sites, moved, a))
  }

  /** `done` are the sites to patch whose target is in `targets`, each once. */
  ghost predicate PatchedFor(sites: Table, moved: Funcs, onStack: Funcs, targets: set<int>, done: seq<int>) {
    && NoDuplicates(done)
    && (forall a :: a in done <==> NeedsPatch(sites, moved, onStack, a) && sites[a].target in targets)
  }

  /** extract_call_sites: over the moved functions in any order, and over the
      callers of each. */
  method ExtractCallSites(moved: Funcs, onStack: Funcs, sites: Table, index: Index) returns (file: seq<Byte>)
    requires Inverts(index, sites) && NearEnough(sites, moved)
    ensures exists patched: seq<int> {:trigger AllCallMoved(sites, moved, patched)} ::
      && NoDuplicates(patched)
      && (forall a :: a in patched <==> a in sites && sites[a].target in moved && sites[a].belongedFunc in onStack)
      && AllCallMoved(sites, moved, patched)
      && file == EncodeAll(Patches(sites, moved, patched))
  {
    hide EncodeAll, Patches, Inverts, NearEnough;
    file := [];
    ghost var patched: seq<int> := [];
    PatchesOfNone(sites, moved);
    var todo := moved.Keys;
    while todo != {}
      invariant todo <= moved.Keys
      invariant PatchedFor(sites, moved, onStack, moved.Keys - todo, patched)
      invariant AllCallMoved(sites, moved, patched)
      invariant file == EncodeAll(Patches(sites, moved, patched))
    {
      EmptyOrNot(todo);
      var target :| target in todo;
      todo := todo - {target};
      if target in index {
        CallersListed(index, sites, target);
        file := PatchCallers(moved, onStack, sites, index[target], target, file);
        ghost var added: seq<int> :|
          && NoDuplicates(added)
          && (forall a :: a in added <==> a in index[target] && NeedsPatch(sites, moved, onStack, a))
          && AllCallMoved(sites, moved, added)
          && file == EncodeAll(Patches(sites, moved, patched)) + EncodeAll(Patches(sites, moved, added));
        PatchesAppend(sites, moved, patched, added);
        CallersAreAll(sites, moved, onStack, index, target, moved.Keys - todo, patched, added);
        patched := patched + added;
      } else {
        NoCallers(index, sites, target);
        assert moved.Keys - todo == (moved.Keys - todo - {target}) + {target};
      }
    }
    assert moved.Keys - todo == moved.Keys;
  }

  lemma CallersListed(index: Index, sites: Table, target: int)
    requires Inverts(index, sites) && target in index
    ensures NoDuplicates(index[target]) && forall a :: a in index[target] ==> a in sites && sites[a].target == target
  {
  }

  lemma NoCallers(index: Index, sites: Table, target: int)
    requires Inverts(index, sites) && target !in index
    ensures forall a :: a in sites ==> sites[a].target != target
  {
  }

  /** The callers listed under one target. */
  method PatchCallers(moved: Funcs, onStack: Funcs, sites: Table, callers: seq<int>, target: int, file0: seq<Byte>)
    returns (file: seq<Byte>)
    requires target in moved && NoDuplicates(callers) && NearEnough(sites, moved)
    requires forall a :: a in callers ==> a in sites && sites[a].target == target
    ensures exists added: seq<int> {:trigger AllCallMoved(sites, moved, added)} ::
      && NoDuplicates(added)
      && (forall a :: a in added <==> a in callers && sites[a].belongedFunc in onStack)
      && AllCallMoved(sites, moved, added)
      && file == file0 + EncodeAll(Patches(sites, moved, added))
  {
    hide EncodeAll, Patches;
    file := file0;
    ghost var added: seq<int> := [];
    PatchesOfNone(sites, moved);
    var i := 0;
    while i < |callers|
      invariant 0 <= i <= |callers|
      invariant NoDuplicates(added) && AllCallMoved(sites, moved, added)
      invariant forall a :: a in added <==> a in callers[..i] && NeedsPatch(sites, moved, onStack, a)
      invariant file == file0 + EncodeAll(Patches(sites, moved, added))
    {
      var addr := callers[i];
      assert callers[..i + 1] == callers[..i] + [addr];
      assert addr in callers;
      if sites[addr].belongedFunc in onStack {
        assert addr !in callers[..i];
        file := WritePatch(moved, sites, addr, target, file);
        OnePatchMore(sites, moved, added, addr);
        AppendAssociative(file0, EncodeAll(Patches(sites, moved, added)), Encode(Patch(sites, moved, addr)));
        added := added + [addr];
      }
      i := i + 1;
    }
    assert callers[..i] == callers;
  }

  /** One record: the site, five bytes, the call opcode and the new distance. */
  method WritePatch(moved: Funcs, sites: Table, addr: int, target: int, file0: seq<Byte>) returns (file: seq<Byte>)
    requires addr in sites && sites[addr].target == target && target in moved && NearEnough(sites, moved)
    ensures file == file0 + Encode(Patch(sites, moved, addr))
  {
    hide Rel32Bytes, ToLE;
    var baseAddr := sites[addr].nextAddr;
    var newTargetAddr := moved[target].movedAddr;
    assert CallsMoved(sites, moved, addr);
    var line := ConvertLong2VecUint8(newTargetAddr - baseAddr);
    var size := |line| + 1;
    file := file0 + ToLE(U64(addr), 8) + ToLE(U64(size), 8);
    var buffer := [232] + line;
    file := file + buffer;
    assert Patch(sites, moved, addr) == Record(addr, buffer) && |buffer| == size;
  }

  lemma PatchesOfNone(sites: Table, moved: Funcs)
    ensures EncodeAll(Patches(sites, moved, [])) == []
  {
  }

  lemma PatchesAppend(sites: Table, moved: Funcs, s: seq<int>, t: seq<int>)
    requires AllCallMoved(sites, moved, s) && AllCallMoved(sites, moved, t)
    ensures AllCallMoved(sites, moved, s + t)
    ensures EncodeAll(Patches(sites, moved, s + t)) == EncodeAll(Patches(sites, moved, s)) + EncodeAll(Patches(sites, moved, t))
  {
    hide EncodeAll, Rel32Bytes;
    assert Patches(sites, moved, s + t) == Patches(sites, moved, s) + Patches(sites, moved, t);
    EncodeAllAppend(Patches(sites, moved, s), Patches(sites, moved, t));
  }

  lemma OnePatchMore(sites: Table, moved: Funcs, s: seq<int>, addr: int)
    requires AllCallMoved(sites, moved, s) && CallsMoved(sites, moved, addr)
    ensures AllCallMoved(sites, moved, s + [addr])
    ensures EncodeAll(Patches(sites, moved, s + [addr])) == EncodeAll(Patches(sites, moved, s)) + Encode(Patch(sites, moved, addr))
  {
    hide EncodeAll, Encode, Rel32Bytes;
    assert Patches(sites, moved, s + [addr]) == Patches(sites, moved, s) + [Patch(sites, moved, addr)];
    EncodeAllSnoc(Patches(sites, moved, s), Patch(sites, moved, addr));
  }

  lemma CallersAreAll(sites: Table, moved: Funcs, onStack: Funcs, index: Index, target: int, targets: set<int>,
                      patched: seq<int>, added: seq<int>)
    requires Inverts(index, sites) && target in index && target in moved && target in targets
    requires PatchedFor(sites, moved, onStack, targets - {target}, patched) && NoDuplicates(added)
    requires forall a :: a in added <==> a in index[target] && NeedsPatch(sites, moved, onStack, a)
    ensures PatchedFor(sites, moved, onStack, targets, patched + added)
  {
    var all := patched + added;
    assert forall a :: a in all <==> a in patched || a in added;
    forall i, j | 0 <= i < j < |all|
      ensures all[i] != all[j]
    {
      assert i < |patched| <= j ==> all[i] in patched && all[j] in added;
    }
    forall a
      ensures a in all <==> NeedsPatch(sites, moved, onStack, a) && sites[a].target in targets
    {
    }
  }

  /** Distances the encoder and a rel32 can both express. */
  predicate Encodable(distance: int) {
    -TWO_31 <= distance < TWO_31 && (distance >= 0 || distance % TWO_24 == 0)
  }

  /** The processor, executing the five bytes of a patch, reaches the moved
      function exactly when the distance is encodable. */
  lemma PatchReaches(mem: Memory, a: int, moved: int)
    requires 0 <= moved < TWO_64 && IsLong(moved - (a + 5))
    requires Has(mem, a, 5) && Bytes(mem, a, 5) == [0xE8] + Rel32Bytes(moved - (a + 5))
    ensures Decode(mem, a).Inst? && Decode(mem, a).size == 5
    ensures Decode(mem, a).op == Call(moved) <==> Encodable(moved - (a + 5))
  {
    hide Rel32Bytes, LE;
    var x := moved - (a + 5);
    var code := Rel32Bytes(x);
    assert mem[a] == Bytes(mem, a, 5)[0];
    assert Bytes(mem, a + 1, 4) == Bytes(mem, a, 5)[1..] == code;
    EncoderExact(x);
    ToLEOfLE(code);
    Pow256Values();
    DisplacementReaches(x, LE(code), a + 5, moved);
  }

  lemma DisplacementReaches(x: int, v: int, next: int, moved: int)
    requires 0 <= v < TWO_32 && moved == next + x && 0 <= moved < TWO_64 && IsLong(x)
    requires v == U32(x) <==> x >= 0 || x % TWO_24 == 0
    ensures U64(next + S32(v)) == moved <==> Encodable(x)
  {
    var d := S32(v);
    assert v == U32(v);
    SameRemainder(next + d, moved);
    assert U64(next + d) == moved <==> d == x;
    if -TWO_31 <= x < TWO_31 {
      assert U32(x) == if x >= 0 then x else x + TWO_32;
      assert d == x <==> v == U32(x);
    }
  }

  lemma SameRemainder(y: int, m: int)
    requires 0 <= m < TWO_64 && -TWO_64 < y - m < TWO_64
    ensures U64(y) == m <==> y == m
  {
    var q := y / TWO_64;
    assert y == TWO_64 * q + U64(y);
    if U64(y) == m {
      assert y - m == TWO_64 * q;
    }
  }

  // A patch that is cut

  lemma CallTarget(mem: Memory, a: int, bs: seq<Byte>)
    requires Has(mem, a, 5) && Bytes(mem, a, 5) == bs && Decode(mem, a).Inst? && Decode(mem, a).op.Call?
    ensures bs[0] == 0xE8 && Decode(mem, a).op.target == U64(a + 5 + S32(LE(bs[1..])))
  {
    hide LE;
    assert mem[a] == bs[0];
    assert Bytes(mem, a + 1, 4) == bs[1..];
  }

  /** The bytes of a patch that the encoder gets right name the moved function. */
  lemma PatchedCall(a: int, bs: seq<Byte>, moved: int)
    requires 0 <= moved < TWO_64 && IsLong(moved - (a + 5)) && Encodable(moved - (a + 5))
    requires bs == [0xE8] + Rel32Bytes(moved - (a + 5))
    ensures |bs| == 5 && U64(a + 5 + S32(LE(bs[1..]))) == moved
  {
    hide Rel32Bytes, LE;
    var code := Rel32Bytes(moved - (a + 5));
    assert bs[1..] == code;
    EncoderExact(moved - (a + 5));
    ToLEOfLE(code);
    Pow256Values();
    DisplacementReaches(moved - (a + 5), LE(code), a + 5, moved);
  }

  /** Two displacements that lead to the same place are the same four bytes. */
  lemma SameDisplacement(next: int, u: seq<Byte>, v: seq<Byte>)
    requires |u| == |v| == 4
    ensures U64(next + S32(LE(u))) == U64(next + S32(LE(v))) <==> u == v
  {
    hide LE, ToLE;
    ToLEOfLE(u);
    ToLEOfLE(v);
    Pow256Values();
    SameShift(next, LE(u), LE(v));
  }

  lemma SameShift(next: int, x: int, y: int)
    requires 0 <= x < TWO_32 && 0 <= y < TWO_32
    ensures U64(next + S32(x)) == U64(next + S32(y)) <==> x == y
  {
    assert U32(x) == x && U32(y) == y;
    var q, r := (next + S32(x)) / TWO_64, (next + S32(y)) / TWO_64;
    if U64(next + S32(x)) == U64(next + S32(y)) {
      assert S32(x) - S32(y) == TWO_64 * (q - r);
    }
  }

  lemma MixedBytes(was: seq<Byte>, patch: seq<Byte>, m: nat)
    requires |was| == |patch| == 5 && was[0] == patch[0] && 0 < m < 5
    ensures var mix := patch[..m] + was[m..];
      && |mix| == 5 && mix[0] == was[0]
      && (mix[1..] == was[1..] <==> was[..m] == patch[..m])
      && (mix[1..] == patch[1..] <==> was[m..] == patch[m..])
  {
    var mix := patch[..m] + was[m..];
    assert mix[..m] == patch[..m] && mix[m..] == was[m..];
    SameTail(mix, was, m);
    SameTail(mix, patch, m);
  }

  lemma SameTail(u: seq<Byte>, v: seq<Byte>, m: nat)
    requires |u| == |v| == 5 && u[0] == v[0] && 0 < m < 5
    ensures u[1..] == v[1..] <==> u[..m] == v[..m] && u[m..] == v[m..]
  {
    assert u == u[..m] + u[m..] && v == v[..m] + v[m..];
    assert u == [u[0]] + u[1..] && v == [v[0]] + v[1..];
  }

  /** A call whose first `m` bytes are those of one call and whose others are
      those of another. */
  lemma MixedCall(mem: Memory, a: int, was: seq<Byte>, patch: seq<Byte>, m: nat)
    requires |was| == |patch| == 5 && was[0] == patch[0] == 0xE8 && 0 < m < 5
    requires Has(mem, a, 5) && Bytes(mem, a, 5) == patch[..m] + was[m..]
    ensures Decode(mem, a).Inst? && Decode(mem, a).size == 5 && Decode(mem, a).op.Call?
    ensures Decode(mem, a).op.target == U64(a + 5 + S32(LE(was[1..]))) <==> was[..m] == patch[..m]
    ensures Decode(mem, a).op.target == U64(a + 5 + S32(LE(patch[1..]))) <==> was[m..] == patch[m..]
  {
    hide LE, U64, S32;
    var mix := Bytes(mem, a, 5);
    MixedBytes(was, patch, m);
    assert mem[a] == mix[0];
    CallTarget(mem, a, mix);
    hide Decode;
    SameDisplacement(a + 5, mix[1..], was[1..]);
    SameDisplacement(a + 5, mix[1..], patch[1..]);
  }
}
