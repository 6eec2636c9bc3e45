/** Which functions may be overwritten (src/infrastructure.cpp): the symbol map,
    the ordered lookup of stack addresses, and the set differences. */
module CallStack {
  import opened Words
  import opened Hex

  /** `movedAddr` and `movedSize` are set for BOLTed functions only. */
  datatype FuncInfo = FuncInfo(originalAddr: int, originalSize: int, movedAddr: int, movedSize: int)

  type Funcs = map<int, FuncInfo>

  // The symbol map

  /** A line of nm for a text symbol; weak symbols do not count. */
  predicate IsTextSymbol(words: seq<string>) {
    |words| > 3 && (words[2] == "T" || words[2] == "t")
  }

  predicate Declares(words: seq<string>, a: int) {
    IsTextSymbol(words) && S64(Value(words[0])) == a
  }

  function InfoOf(words: seq<string>): FuncInfo
    requires IsTextSymbol(words)
  {
    FuncInfo(S64(Value(words[0])), S64(Value(words[1])), 0, 0)
  }

  /** Line `k` is the first to declare `a`. */
  predicate FirstToDeclare(lines: seq<seq<string>>, k: int, a: int) {
    0 <= k < |lines| && Declares(lines[k], a) && forall j :: 0 <= j < k ==> !Declares(lines[j], a)
  }

  /** The symbols that count and those that do not, by nm's letter, and what is
      taken of a line. */
  lemma TextSymbols(addr: string, size: string, letter: string, name: seq<string>)
    requires name != []
    ensures IsTextSymbol([addr, size, letter] + name) <==> letter == "T" || letter == "t"
    ensures IsTextSymbol([addr, size, letter] + name) ==>
      && InfoOf([addr, size, letter] + name) == FuncInfo(S64(Value(addr)), S64(Value(size)), 0, 0)
      && forall a :: Declares([addr, size, letter] + name, a) <==> a == S64(Value(addr))
  {
    hide Value, S64;
    var words := [addr, size, letter] + name;
    assert words[0] == addr && words[1] == size && words[2] == letter;
  }

  /** A line that comes first for its address stays the one, whatever follows. */
  lemma FirstStays(lines: seq<seq<string>>, more: seq<seq<string>>, k: int, a: int)
    requires FirstToDeclare(lines, k, a)
    ensures FirstToDeclare(lines + more, k, a)
  {
    hide Declares;
    forall j | 0 <= j < k
      ensures !Declares((lines + more)[j], a)
    {
      assert (lines + more)[j] == lines[j];
    }
  }

  /** get_func_with_original_addr: the first symbol of an address stays. */
  method GetFuncWithOriginalAddr(lines: seq<seq<string>>) returns (funcs: Funcs)
    ensures forall a, k :: FirstToDeclare(lines, k, a) ==> a in funcs && funcs[a] == InfoOf(lines[k])
    ensures forall a :: a in funcs ==> exists k :: FirstToDeclare(lines, k, a)
  {
    hide Value, S64;
    funcs := map[];
    var i := 0;
    while i < |lines|
      invariant 0 <= i <= |lines|
      invariant forall a, k :: FirstToDeclare(lines, k, a) && k < i ==> a in funcs && funcs[a] == InfoOf(lines[k])
      invariant forall a :: a in funcs ==> exists k :: FirstToDeclare(lines, k, a) && k < i
      invariant forall a, k :: 0 <= k < i && Declares(lines[k], a) ==> a in funcs
    {
      var words := lines[i];
      if |words| > 3 && (words[2] == "T" || words[2] == "t") {
        var addr := ConvertStr2Long(words[0]);
        if addr !in funcs {
          var size := ConvertStr2Long(words[1]);
          funcs := funcs[addr := FuncInfo(addr, size, 0, 0)];
          assert FirstToDeclare(lines, i, addr);
        }
      }
      i := i + 1;
    }
  }

  /** get_unmoved_func */
  method GetUnmovedFunc(funcs: Funcs, bolted: Funcs) returns (unmoved: Funcs)
    ensures unmoved == funcs - bolted.Keys
  {
    unmoved := map[];
    var todo := funcs.Keys;
    while todo != {}
      invariant todo <= funcs.Keys
      invariant unmoved == (funcs - todo) - bolted.Keys
    {
      EmptyOrNot(todo);
      var addr :| addr in todo;
      if addr !in bolted {
        unmoved := unmoved[addr := funcs[addr]];
      }
      todo := todo - {addr};
    }
    assert funcs - todo == funcs;
  }

  /** get_unmoved_func_not_in_call_stack */
  method GetUnmovedFuncNotInCallStack(onStack: Funcs, unmoved: Funcs) returns (rest: Funcs)
    ensures rest == unmoved - onStack.Keys
  {
    rest := map[];
    var todo := unmoved.Keys;
    while todo != {}
      invariant todo <= unmoved.Keys
      invariant rest == (unmoved - todo) - onStack.Keys
    {
      EmptyOrNot(todo);
      var addr :| addr in todo;
      if addr !in onStack {
        rest := rest[addr := unmoved[addr]];
      }
      todo := todo - {addr};
    }
    assert unmoved - todo == unmoved;
  }

  /** get_keys_to_array */
  method GetKeysToArray(funcs: Funcs) returns (addrs: seq<int>)
    ensures forall a :: a in addrs <==> a in funcs
    ensures |addrs| == |funcs|
  {
    addrs := [];
    var todo := funcs.Keys;
    while todo != {}
      invariant todo <= funcs.Keys
      invariant forall a :: a in addrs <==> a in funcs && a !in todo
      invariant |addrs| == |funcs| - |todo|
      decreases |todo|
    {
      EmptyOrNot(todo);
      var addr :| addr in todo;
      addrs := addrs + [addr];
      todo := todo - {addr};
    }
  }

  /** get_moved_addr_to_array */
  method GetMovedAddrToArray(funcs: Funcs) returns (addrs: seq<int>)
    ensures forall a :: a in funcs ==> funcs[a].movedAddr in addrs
    ensures forall m :: m in addrs ==> exists a :: a in funcs && funcs[a].movedAddr == m
    ensures |addrs| == |funcs|
  {
    addrs := [];
    var todo := funcs.Keys;
    while todo != {}
      invariant todo <= funcs.Keys
      invariant forall a :: a in funcs && a !in todo ==> funcs[a].movedAddr in addrs
      invariant forall m :: m in addrs ==> exists a :: a in funcs && funcs[a].movedAddr == m
      invariant |addrs| == |funcs| - |todo|
      decreases |todo|
    {
      EmptyOrNot(todo);
      var addr :| addr in todo;
      addrs := addrs + [funcs[addr].movedAddr];
      todo := todo - {addr};
    }
  }

  // The ordered map

  datatype Entry = Entry(key: int, info: FuncInfo)

  /** A map kept in key order, as std::map is. */
  type Heap = seq<Entry>

  predicate Sorted(h: Heap) {
    forall i, j :: 0 <= i < j < |h| ==> h[i].key < h[j].key
  }

  ghost predicate Holds(h: Heap, m: Funcs) {
    && (forall e :: e in h ==> e.key in m && m[e.key] == e.info)
    && (forall k :: k in m ==> Entry(k, m[k]) in h)
  }

  /** The first position whose key is not below `x`. */
  method LowerBound(h: Heap, x: int) returns (i: nat)
    requires Sorted(h)
    ensures i <= |h|
    ensures forall j :: 0 <= j < i ==> h[j].key < x
    ensures forall j :: i <= j < |h| ==> x <= h[j].key
  {
    i := 0;
    while i < |h| && h[i].key < x
      invariant 0 <= i <= |h|
      invariant forall j :: 0 <= j < i ==> h[j].key < x
    {
      i := i + 1;
    }
  }

  /** `heap[key] = info` */
  method Put(h: Heap, key: int, info: FuncInfo, ghost m: Funcs) returns (h': Heap)
    requires Sorted(h) && Holds(h, m)
    ensures Sorted(h') && Holds(h', m[key := info])
  {
    var i := LowerBound(h, key);
    if i < |h| && h[i].key == key {
      Replaced(h, m, i, Entry(key, info));
      h' := h[i := Entry(key, info)];
    } else {
      Inserted(h, m, i, Entry(key, info));
      h' := h[..i] + [Entry(key, info)] + h[i..];
    }
  }

  lemma Replaced(h: Heap, m: Funcs, i: nat, e: Entry)
    requires Sorted(h) && Holds(h, m) && i < |h| && h[i].key == e.key
    ensures Sorted(h[i := e]) && Holds(h[i := e], m[e.key := e.info])
  {
    var h' := h[i := e];
    assert h'[i] == e;
    forall x | x in h && x.key != e.key
      ensures x in h'
    {
      var j :| 0 <= j < |h| && h[j] == x;
      assert h'[j] == x;
    }
  }

  lemma Inserted(h: Heap, m: Funcs, i: nat, e: Entry)
    requires Sorted(h) && Holds(h, m) && i <= |h|
    requires forall j :: 0 <= j < i ==> h[j].key < e.key
    requires forall j :: i <= j < |h| ==> e.key < h[j].key
    ensures Sorted(h[..i] + [e] + h[i..]) && Holds(h[..i] + [e] + h[i..], m[e.key := e.info])
  {
    InsertedSorted(h, i, e);
    var h' := h[..i] + [e] + h[i..];
    hide Sorted;
    assert forall x :: x in h ==> x.key != e.key;
    assert forall x :: x in h' <==> x in h || x == e by { InsertedMembers(h, i, e); }
  }

  lemma InsertedSorted(h: Heap, i: nat, e: Entry)
    requires Sorted(h) && i <= |h|
    requires forall j :: 0 <= j < i ==> h[j].key < e.key
    requires forall j :: i <= j < |h| ==> e.key < h[j].key
    ensures Sorted(h[..i] + [e] + h[i..])
  {
    var h' := h[..i] + [e] + h[i..];
    forall j, k | 0 <= j < k < |h'|
      ensures h'[j].key < h'[k].key
    {
      assert h'[j] == if j < i then h[j] else if j == i then e else h[j - 1];
      assert h'[k] == if k < i then h[k] else if k == i then e else h[k - 1];
    }
  }

  lemma InsertedMembers(h: Heap, i: nat, e: Entry)
    requires i <= |h|
    ensures forall x :: x in h[..i] + [e] + h[i..] <==> x in h || x == e
  {
    assert h == h[..i] + h[i..];
  }

  /** change_func_to_heap: every function, in key order whatever the order in
      which the hash map is iterated. */
  method ChangeFuncToHeap(funcs: Funcs) returns (heap: Heap)
    ensures Sorted(heap) && Holds(heap, funcs)
  {
    heap := [];
    var todo := funcs.Keys;
    ghost var done: Funcs := map[];
    while todo != {}
      invariant todo <= funcs.Keys && done == funcs - todo
      invariant Sorted(heap) && Holds(heap, done)
    {
      EmptyOrNot(todo);
      var addr :| addr in todo;
      heap := Put(heap, addr, funcs[addr], done);
      done := done[addr := funcs[addr]];
      todo := todo - {addr};
    }
    assert done == funcs;
  }

  // The stack lookup

  /** `k` is the greatest key strictly below `ip`, and some key is not below it. */
  ghost predicate Owner(m: Funcs, ip: int, k: int) {
    && k in m && k < ip
    && (forall j :: j in m && j < ip ==> j <= k)
    && (exists j :: j in m && ip <= j)
  }

  /** `prev` of the first position is undefined. */
  predicate LookupDefined(h: Heap, ips: seq<int>) {
    h != [] ==> forall i :: 0 <= i < |ips| ==> h[0].key < ips[i]
  }

  /** The entry before the lower bound is the owner, and the only one. */
  lemma LowerBoundOwner(h: Heap, m: Funcs, ip: int, low: nat)
    requires Sorted(h) && Holds(h, m) && 0 < low < |h|
    requires h[low - 1].key < ip <= h[low].key
    ensures forall k :: Owner(m, ip, k) <==> k == h[low - 1].key
  {
    var k := h[low - 1].key;
    assert h[low - 1] in h && h[low] in h;
    forall j | j in m && j < ip
      ensures j <= k
    {
      var n :| 0 <= n < |h| && h[n] == Entry(j, m[j]);
    }
    assert h[low].key in m;
    assert Owner(m, ip, k);
  }

  lemma NoOwnerAbove(h: Heap, m: Funcs, ip: int)
    requires Holds(h, m) && forall j :: 0 <= j < |h| ==> h[j].key < ip
    ensures forall k :: !Owner(m, ip, k)
  {
    forall j | j in m
      ensures j < ip
    {
      var n :| 0 <= n < |h| && h[n] == Entry(j, m[j]);
    }
  }

  /** Some stack address is attributed to `k`. */
  ghost predicate Attributed(ips: seq<int>, m: Funcs, k: int) {
    exists i :: 0 <= i < |ips| && Owner(m, ips[i], k)
  }

  /** get_func_in_call_stack */
  method GetFuncInCallStack(ips: seq<int>, heap: Heap, ghost m: Funcs) returns (onStack: Funcs)
    requires Sorted(heap) && Holds(heap, m)
    requires LookupDefined(heap, ips)
    ensures onStack == OnStack(ips, m)
  {
    hide Owner, Attributed, OnStack;
    onStack := map[];
    NoneAttributed(m);
    var i := 0;
    assert ips[..0] == [];
    while i < |ips|
      invariant 0 <= i <= |ips|
      invariant forall k :: k in onStack <==> Attributed(ips[..i], m, k)
      invariant forall k :: k in onStack ==> k in m && onStack[k] == m[k]
    {
      AttributedMore(ips, m, i);
      var low := LowerBound(heap, ips[i]);
      if low != |heap| {
        var entry := heap[low - 1];
        onStack := onStack[entry.key := entry.info];
        assert ips[i] <= heap[low].key && heap[low].key in m;
        assert entry in heap;
        LowerBoundOwner(heap, m, ips[i], low);
      } else {
        NoOwnerAbove(heap, m, ips[i]);
      }
      i := i + 1;
    }
    assert ips[..i] == ips;
    OnStackIs(ips, m, onStack);
  }

  lemma NoneAttributed(m: Funcs)
    ensures forall k :: !Attributed([], m, k)
  {
  }

  lemma AttributedMore(ips: seq<int>, m: Funcs, i: nat)
    requires i < |ips|
    ensures forall k :: Attributed(ips[..i + 1], m, k) <==> Attributed(ips[..i], m, k) || Owner(m, ips[i], k)
  {
    forall k
      ensures Attributed(ips[..i + 1], m, k) <==> Attributed(ips[..i], m, k) || Owner(m, ips[i], k)
    {
      assert ips[..i + 1] == ips[..i] + [ips[i]];
      if Attributed(ips[..i], m, k) {
        var j :| 0 <= j < i && Owner(m, ips[..i][j], k);
        assert ips[..i + 1][j] == ips[j];
      }
      if Owner(m, ips[i], k) {
        assert Owner(m, ips[..i + 1][i], k);
      }
    }
  }

  /** The functions the lookup attributes to the stack addresses. */
  ghost function OnStack(ips: seq<int>, m: Funcs): (onStack: Funcs)
    ensures forall k :: k in onStack <==> Attributed(ips, m, k)
    ensures forall k :: k in onStack ==> k in m && onStack[k] == m[k]
  {
    map k | k in m && Attributed(ips, m, k) :: m[k]
  }

  lemma OnStackIs(ips: seq<int>, m: Funcs, onStack: Funcs)
    requires forall k :: k in onStack <==> Attributed(ips, m, k)
    requires forall k :: k in onStack ==> k in m && onStack[k] == m[k]
    ensures onStack == OnStack(ips, m)
  {
    var r := OnStack(ips, m);
    assert forall k :: k in onStack <==> k in r;
    assert forall k :: k in onStack ==> onStack[k] == r[k];
    assert onStack.Keys == r.Keys;
  }

  /** Functions do not overlap. */
  ghost predicate Separate(m: Funcs) {
    forall j, k :: j in m && k in m && j < k ==> j + m[j].originalSize <= k
  }

  /** `ip` lies after the first byte of function `k`. */
  predicate StrictlyInside(m: Funcs, k: int, ip: int) {
    k in m && k < ip < k + m[k].originalSize
  }

  ghost predicate IsLast(m: Funcs, k: int) {
    k in m && forall j :: j in m ==> j <= k
  }

  /** A return address is attributed to its caller, even when the call is the
      caller's last instruction and the address is the next function's, exactly
      when the caller is not the last function. */
  lemma CallerIsOwner(m: Funcs, k: int, ip: int)
    requires Separate(m) && k in m && k < ip <= k + m[k].originalSize
    ensures Owner(m, ip, k) <==> !IsLast(m, k)
  {
    var end := k + m[k].originalSize;
    assert forall j :: j in m && k < j ==> end <= j;
    if !IsLast(m, k) {
      var j :| j in m && k < j;
      assert ip <= j;
    }
  }

  /** An address has at most one owner. */
  lemma OwnerUnique(m: Funcs, ip: int, j: int, k: int)
    requires Owner(m, ip, j) && Owner(m, ip, k)
    ensures j == k
  {
  }

  /** Some function that will be overwritten has a stack address strictly
      inside. */
  ghost predicate Exposed(m: Funcs, bolted: Funcs, ips: seq<int>) {
    exists k, i :: 0 <= i < |ips| && StrictlyInside(m, k, ips[i])
      && k !in bolted && k !in OnStack(ips, m)
  }

  /** The set differences protect every function with a frame, except the last
      function of the image, which the lookup can never name. */
  lemma ExposedExactly(m: Funcs, bolted: Funcs, ips: seq<int>)
    requires Separate(m)
    ensures Exposed(m, bolted, ips) <==>
      exists k, i :: 0 <= i < |ips| && StrictlyInside(m, k, ips[i]) && IsLast(m, k) && k !in bolted
  {
    forall k, i | 0 <= i < |ips| && StrictlyInside(m, k, ips[i])
      ensures k in OnStack(ips, m) <==> !IsLast(m, k)
    {
      CallerIsOwner(m, k, ips[i]);
      if k in OnStack(ips, m) {
        var n :| 0 <= n < |ips| && Owner(m, ips[n], k);
        var j :| j in m && ips[n] <= j;
        assert k < j;
      }
    }
  }

  /** A thread inside the last of two functions: the lookup finds no function. */
  lemma LastFunctionMissed()
    ensures var m: Funcs := map[100 := FuncInfo(100, 50, 0, 0), 200 := FuncInfo(200, 50, 0, 0)];
      Separate(m) && StrictlyInside(m, 200, 210) && OnStack([210], m) == map[] && Exposed(m, map[], [210])
  {
    var m: Funcs := map[100 := FuncInfo(100, 50, 0, 0), 200 := FuncInfo(200, 50, 0, 0)];
    assert IsLast(m, 200) && StrictlyInside(m, 200, [210][0]);
    ExposedExactly(m, map[], [210]);
  }

  /** A thread stopped on the first byte of a function: the lookup names the
      function before it. */
  lemma EntryIsMisattributed(m: Funcs, j: int, k: int)
    requires j in m && k in m && j < k
    requires forall n :: n in m ==> n <= j || k <= n
    ensures Owner(m, k, j) && !Owner(m, k, k)
  {
  }
}
