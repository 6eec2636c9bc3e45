/** The insertion library (src/replace_function.cpp): record streams replayed
    into the address space of the paused process, page by page. */
module Insertion {
  import opened Words
  import opened Code
  import opened Records

  datatype Option<+T> = None | Some(value: T)

  datatype Perm = Perm(read: bool, write: bool, exec: bool)

  const RWX := Perm(true, true, true)
  const RX := Perm(true, false, true)
  const PAGE: int := 4096

  /** Pages are numbered; page `p` holds the addresses from `p * PAGE`. */
  function PageOf(a: int): int { a / PAGE }

  lemma PageSpan(p: int, k: int)
    ensures PageOf(k) == p <==> p * PAGE <= k < p * PAGE + PAGE
  {
  }

  /** The pages the offset loop visits for a record: one page beyond the page
      that the end of the record falls on. */
  function PagesOf(r: Record): (s: set<int>)
    ensures forall p :: p in s <==> PageOf(r.addr) <= p <= PageOf(r.addr + |r.payload|) + 1
  {
    PageMonotone(r.addr, r.addr + |r.payload|);
    Range(PageOf(r.addr), PageOf(r.addr + |r.payload|) + 2 - PageOf(r.addr))
  }

  lemma PageMonotone(a: int, b: int)
    requires a <= b
    ensures PageOf(a) <= PageOf(b)
  {
  }

  function AllPages(rs: seq<Record>): set<int> {
    if rs == [] then {} else PagesOf(rs[0]) + AllPages(rs[1..])
  }

  /** A page is visited exactly when some record visits it. */
  lemma {:induction false} PageVisited(rs: seq<Record>, p: int)
    ensures p in AllPages(rs) <==> exists r :: r in rs && p in PagesOf(r)
  {
    if rs != [] {
      PageVisited(rs[1..], p);
      assert rs == [rs[0]] + rs[1..];
    }
  }

  /** The walk of the offset loop: the multiples of 4096 from the one at or below
      the record's address to the one at most 4096 beyond its end. */
  lemma PageWalk(r: Record, p: int)
    ensures p in PagesOf(r) <==>
      exists i: nat :: p * 4096 == r.addr - r.addr % 4096 + i * 4096 && i * 4096 <= r.addr % 4096 + |r.payload| + 4096
  {
    var first, last := PageOf(r.addr), PageOf(r.addr + |r.payload|);
    assert r.addr == first * 4096 + r.addr % 4096;
    if p in PagesOf(r) {
      var i: nat := p - first;
      PageSpan(last, r.addr + |r.payload|);
      assert p * 4096 == r.addr - r.addr % 4096 + i * 4096;
    }
    if i: nat :| p * 4096 == r.addr - r.addr % 4096 + i * 4096 && i * 4096 <= r.addr % 4096 + |r.payload| + 4096 {
      assert p == first + i;
      PageSpan(last, r.addr + |r.payload|);
    }
  }

  lemma CoveredPage(r: Record, k: int)
    requires Covers(r, k)
    ensures PageOf(k) in PagesOf(r)
  {
    PageMonotone(r.addr, k);
    PageMonotone(k, r.addr + |r.payload|);
  }

  function AddressesOf(pages: set<int>): (s: set<int>)
    ensures forall k :: k in s <==> PageOf(k) in pages
  {
    var s := set p, k | p in pages && k in Range(p * PAGE, PAGE) :: k;
    assert forall k :: k in s <==> PageOf(k) in pages by {
      forall k
        ensures k in s <==> PageOf(k) in pages
      {
        PageSpan(PageOf(k), k);
        if k in s {
          var p :| p in pages && k in Range(p * PAGE, PAGE);
          PageSpan(p, k);
        }
        assert k in Range(PageOf(k) * PAGE, PAGE);
      }
    }
    s
  }

  /** What freshly mapped anonymous pages hold. */
  function Zeros(pages: set<int>): (m: Memory)
    ensures forall k :: k in m <==> PageOf(k) in pages
    ensures forall k :: k in m ==> m[k] == 0
  {
    map k | k in AddressesOf(pages) :: 0
  }

  function Protect(perm: map<int, Perm>, pages: set<int>, v: Perm): map<int, Perm> {
    map p | p in perm.Keys + pages :: if p in pages then v else perm[p]
  }

  // What the phases compute

  datatype Space = Space(bytes: Memory, perm: map<int, Perm>)

  /** `Exited` is exit(-1) in the process itself: nothing is left to run. */
  datatype Result = Exited | Running(space: Space)

  /** Pages newly mapped, all permissions on and holding zeros. */
  function Fresh(s: Space, pages: set<int>): Space {
    Space(s.bytes + Zeros(pages), Protect(s.perm, pages, RWX))
  }

  function Copied(s: Space, r: Record): Space {
    Space(s.bytes + Overlay(r), s.perm)
  }

  lemma FreshMore(s: Space, pages: set<int>, more: set<int>)
    ensures Fresh(Fresh(s, pages), more) == Fresh(s, pages + more)
  {
    ZerosAdd(s.bytes, pages, more);
    ProtectMore(s.perm, pages, more, RWX);
  }

  function BoltedEffect(s: Space, rs: seq<Record>): Space {
    Space(Replay(s.bytes + Zeros(AllPages(rs)), rs), Protect(s.perm, AllPages(rs), RX))
  }

  function TextEffect(s: Space, rs: seq<Record>): Space {
    Space(Replay(s.bytes, rs), Protect(s.perm, AllPages(rs), RWX))
  }

  /** New text is mapped when the stream is read to its end and none of its
      pages was mapped before. */
  function BoltedReplay(s: Space, reading: Reading): Result {
    if reading.ending.Finished? && AllPages(reading.records) !! s.perm.Keys
    then Running(BoltedEffect(s, reading.records)) else Exited
  }

  /** Old text is rewritten when the stream is read to its end and all its
      pages are mapped. */
  function TextReplay(s: Space, reading: Reading): Result {
    if reading.ending.Finished? && AllPages(reading.records) <= s.perm.Keys
    then Running(TextEffect(s, reading.records)) else Exited
  }

  /** A phase whose file could not be opened is skipped. */
  function BoltedPhase(s: Space, file: Option<seq<Byte>>, pad: nat -> Byte): Result {
    if file.None? then Running(s) else BoltedReplay(s, Read(file.value, pad))
  }

  function TextPhase(s: Space, file: Option<seq<Byte>>, pad: nat -> Byte): Result {
    if file.None? then Running(s) else TextReplay(s, Read(file.value, pad))
  }

  datatype Files = Files(bolted: Option<seq<Byte>>, callSites: Option<seq<Byte>>,
                         vTables: Option<seq<Byte>>, unmoved: Option<seq<Byte>>)

  /** The four phases in order; `pads` is the uninitialised stack memory each
      phase may see. */
  function InsertAll(s: Space, files: Files, pads: nat -> nat -> Byte): Result {
    var one := BoltedPhase(s, files.bolted, pads(1));
    if one.Exited? then Exited else
      var two := TextPhase(one.space, files.callSites, pads(2));
      if two.Exited? then Exited else
        var three := TextPhase(two.space, files.vTables, pads(3));
        if three.Exited? then Exited else TextPhase(three.space, files.unmoved, pads(4))
  }

  // A library that is stopped on its way

  /** The records begun when copying stops within the one after the first `n`. */
  function Begun(rs: seq<Record>, n: nat): seq<Record> { if n < |rs| then rs[..n + 1] else rs }

  /** New text after the records `done` and `m` bytes of `r`. */
  function TornNewText(s: Space, done: seq<Record>, r: Record, m: nat): Space {
    var pages := AllPages(done + [r]);
    Space(Replay(s.bytes + Zeros(pages), done + [Start(r, m)]), Protect(s.perm, pages, RWX))
  }

  /** The first phase, stopped after `n` records and `m` bytes if it has more. */
  function BoltedUntil(s: Space, reading: Reading, n: nat, m: nat): Result {
    var rs := reading.records;
    if n >= |rs| then BoltedReplay(s, reading)
    else if AllPages(rs[..n] + [rs[n]]) !! s.perm.Keys then Running(TornNewText(s, rs[..n], rs[n], m))
    else Exited
  }

  /** A later phase, stopped likewise. */
  function TextUntil(s: Space, reading: Reading, n: nat, m: nat): Result {
    var rs := reading.records;
    if n >= |rs| then TextReplay(s, reading)
    else if AllPages(rs[..n + 1]) <= s.perm.Keys then
      Running(Space(Replay(s.bytes, Torn(rs, n, m)), Protect(s.perm, AllPages(rs[..n + 1]), RWX)))
    else Exited
  }

  /** Later phases one after the other, stopped after `n` records in all. */
  function TextsUntil(s: Space, readings: seq<Reading>, n: nat, m: nat): Result
    decreases |readings|
  {
    if readings == [] then Running(s)
    else
      var one, count := TextUntil(s, readings[0], n, m), |readings[0].records|;
      if one.Exited? || n < count then one else TextsUntil(one.space, readings[1..], n - count, m)
  }

  function TextReadings(files: Files, pads: nat -> nat -> Byte): seq<Reading> {
    [Stream(files.callSites, pads(2)), Stream(files.vTables, pads(3)), Stream(files.unmoved, pads(4))]
  }

  /** The four phases, stopped after `n` records in all and `m` bytes of the next. */
  function InsertUntil(s: Space, files: Files, pads: nat -> nat -> Byte, n: nat, m: nat): Result {
    var bolted := Stream(files.bolted, pads(1));
    var one, count := BoltedUntil(s, bolted, n, m), |bolted.records|;
    if one.Exited? || n < count then one else TextsUntil(one.space, TextReadings(files, pads), n - count, m)
  }

  // The code that computes them

  class AddressSpace {
    var bytes: Memory
    var perm: map<int, Perm>

    ghost function Now(): Space
      reads this
    {
      Space(bytes, perm)
    }

    constructor (bytes: Memory, perm: map<int, Perm>)
      ensures Now() == Space(bytes, perm)
    {
      this.bytes := bytes;
      this.perm := perm;
    }

    /** mprotect of one page fails on an unmapped page. */
    method Mprotect(page: int, v: Perm) returns (ok: bool)
      modifies this
      ensures ok == (page in old(perm))
      ensures bytes == old(bytes)
      ensures perm == if ok then old(perm)[page := v] else old(perm)
    {
      ok := page in perm;
      if ok {
        perm := perm[page := v];
      }
    }

    /** mmap of one page with MAP_FIXED_NOREPLACE fails on a mapped page. */
    method MmapNoReplace(page: int, v: Perm) returns (ok: bool)
      modifies this
      ensures ok == (page !in old(perm))
      ensures bytes == if ok then old(bytes) + Zeros({page}) else old(bytes)
      ensures perm == if ok then old(perm)[page := v] else old(perm)
    {
      ok := page !in perm;
      if ok {
        bytes := bytes + Zeros({page});
        perm := perm[page := v];
      }
    }

    /** A store faults unless its page is mapped writable. */
    method Memcpy(addr: int, payload: seq<Byte>)
      requires forall k :: addr <= k < addr + |payload| ==> PageOf(k) in perm && perm[PageOf(k)].write
      modifies this
      ensures bytes == old(bytes) + Overlay(Record(addr, payload)) && perm == old(perm)
    {
      bytes := bytes + Overlay(Record(addr, payload));
    }

    /** A fresh page, mapped and then given all permissions once more. */
    method MapPage(page: int) returns (ok: bool)
      modifies this
      ensures ok == (page !in old(perm))
      ensures ok ==> Now() == Fresh(old(Now()), {page})
    {
      ok := MmapNoReplace(page, RWX);
      if ok {
        ok := Mprotect(page, RWX);
      }
    }

    /** One pass of the page loop of insert_BOLTed_function. */
    method VisitPage(page: int, owned: set<int>) returns (ok: bool, owned': set<int>)
      modifies this
      ensures ok <==> Unmapped(old(Now()), {page} - owned)
      ensures ok ==> owned' == owned + {page} && Now() == Fresh(old(Now()), {page} - owned)
    {
      ok, owned' := true, owned;
      if page !in owned {
        assert {page} - owned == {page};
        owned' := owned + {page};
        ok := MapPage(page);
      } else {
        assert {page} - owned == {};
        ReplayNothing(Now());
      }
    }

    /** The page loop of insert_BOLTed_function: pages not seen before are
        mapped, and a page mapped by anybody else ends the process. */
    method MapPages(r: Record, owned: set<int>) returns (ok: bool, owned': set<int>)
      requires owned <= perm.Keys
      modifies this
      ensures ok <==> Unmapped(old(Now()), PagesOf(r) - owned)
      ensures ok ==> owned' == owned + PagesOf(r)
      ensures ok ==> Now() == Fresh(old(Now()), PagesOf(r) - owned)
    {
      hide Fresh;
      var base := PageOf(r.addr) * PAGE;
      var offset, page := 0, PageOf(r.addr);
      ok, owned' := true, owned;
      ghost var before := Now();
      NoneVisited(before, r, owned);
      while offset <= r.addr + |r.payload| - base + PAGE
        invariant base + offset == page * PAGE && PageOf(r.addr) <= page
        invariant MappedUpTo(Now(), before, r, owned, page, owned')
        decreases r.addr + |r.payload| - base + PAGE - offset
      {
        LoopPage(r, page);
        OneMorePage(Now(), before, r, owned, page, owned');
        ok, owned' := VisitPage(page, owned');
        if !ok {
          return;
        }
        offset, page := offset + PAGE, page + 1;
      }
      LoopPage(r, page);
    }

    /** The page loop of insert_code_to_orig_text_sec: pages not seen before are
        made writable, and an unmapped page ends the process. */
    method UnlockPages(r: Record, owned: set<int>) returns (ok: bool, owned': set<int>)
      requires owned <= perm.Keys
      requires forall p :: p in owned ==> perm[p] == RWX
      modifies this
      ensures ok <==> PagesOf(r) <= old(perm).Keys
      ensures ok ==> owned' == owned + PagesOf(r)
      ensures ok ==> perm == Protect(old(perm), PagesOf(r), RWX)
      ensures bytes == old(bytes)
    {
      var base := PageOf(r.addr) * PAGE;
      var offset, page := 0, PageOf(r.addr);
      ok, owned' := true, owned;
      while offset <= r.addr + |r.payload| - base + PAGE
        invariant base + offset == page * PAGE && PageOf(r.addr) <= page
        invariant perm.Keys == old(perm).Keys && bytes == old(bytes)
        invariant owned' == owned + Visited(r, page) && owned' <= perm.Keys
        invariant forall p :: p in perm ==> perm[p] == if p in owned' then RWX else old(perm)[p]
        decreases r.addr + |r.payload| - base + PAGE - offset
      {
        LoopPage(r, page);
        if page !in owned' {
          owned' := owned' + {page};
          ok := Mprotect(page, RWX);
          if !ok {
            return;
          }
        }
        VisitedNext(r, page);
        offset, page := offset + PAGE, page + 1;
      }
      LoopPage(r, page);
      assert perm == Protect(old(perm), PagesOf(r), RWX);
    }

    /** The copy of one record into pages just made writable. */
    method CopyRecord(r: Record)
      requires forall p :: p in PagesOf(r) ==> p in perm && perm[p] == RWX
      modifies this
      ensures bytes == old(bytes) + Overlay(r) && perm == old(perm)
    {
      forall k | r.addr <= k < r.addr + |r.payload|
        ensures PageOf(k) in PagesOf(r)
      {
        CoveredPage(r, k);
      }
      Memcpy(r.addr, r.payload);
    }

    /** One pass of the reading loop of insert_BOLTed_function. */
    method BoltedRecord(r: Record, owned: set<int>) returns (ok: bool, owned': set<int>)
      requires owned <= perm.Keys && forall p :: p in owned ==> perm[p] == RWX
      modifies this
      ensures ok <==> Unmapped(old(Now()), PagesOf(r) - owned)
      ensures ok ==> owned' == owned + PagesOf(r)
      ensures ok ==> Now() == Copied(Fresh(old(Now()), PagesOf(r) - owned), r)
    {
      ok, owned' := MapPages(r, owned);
      if ok {
        CopyRecord(r);
      }
    }

    /** The reading loop of insert_BOLTed_function. */
    method ReplayBolted(file: seq<Byte>, pad: nat -> Byte) returns (ok: bool, owned: set<int>)
      modifies this
      ensures var reading := Read(file, pad);
        ok <==> reading.ending.Finished? && AllPages(reading.records) !! old(perm).Keys
      ensures ok ==> owned == AllPages(Read(file, pad).records)
      ensures ok ==> Now() == Written(old(Now()), Read(file, pad).records)
    {
      owned := {};
      var rest := file;
      ghost var done: seq<Record> := [];
      ghost var before := Now();
      ReplayNothing(before);
      while true
        invariant Splits(Read(file, pad), done, Read(rest, pad))
        invariant owned == AllPages(done) && Unmapped(before, owned)
        invariant Now() == Written(before, done)
        decreases |rest|
      {
        var item := ReadItem(rest, pad);
        if item.End? {
          LastRecord(Read(file, pad), done, item.ending);
          return item.ending.Finished?, owned;
        }
        var r := item.record;
        NextRecord(Read(file, pad), done, r, Read(item.rest, pad));
        WrittenMore(before, done, r);
        ok, owned := BoltedRecord(r, owned);
        if !ok {
          return;
        }
        done := done + [r];
        rest := item.rest;
      }
    }

    /** insert_BOLTed_function */
    method InsertBoltedFunctions(file: seq<Byte>, pad: nat -> Byte) returns (ok: bool)
      modifies this
      ensures (if ok then Running(Now()) else Exited) == BoltedReplay(old(Now()), Read(file, pad))
    {
      var owned;
      ok, owned := ReplayBolted(file, pad);
      if ok {
        LockPages(owned);
        LockedWritten(old(Now()), Read(file, pad).records);
      }
    }

    /** The last loop of insert_BOLTed_function, over the page set in any order. */
    method LockPages(owned: set<int>)
      requires owned <= perm.Keys
      modifies this
      ensures Now() == Locked(old(Now()), owned)
    {
      var todo := owned;
      ghost var before := Now();
      while todo != {}
        invariant todo <= owned && owned <= perm.Keys
        invariant Now() == Locked(before, owned - todo)
      {
        EmptyOrNot(todo);
        var page :| page in todo;
        LockedMore(before, owned, todo, page);
        todo := todo - {page};
        var locked := Mprotect(page, RX);
      }
      assert owned - todo == owned;
    }

    /** insert_code_to_orig_text_sec */
    method InsertCodeToOrigTextSec(file: seq<Byte>, pad: nat -> Byte) returns (ok: bool)
      modifies this
      ensures (if ok then Running(Now()) else Exited) == TextReplay(old(Now()), Read(file, pad))
    {
      var owned: set<int> := {};
      var rest := file;
      ghost var done: seq<Record> := [];
      ghost var before := Now();
      ReplayNothing(before);
      while true
        invariant Splits(Read(file, pad), done, Read(rest, pad))
        invariant owned == AllPages(done) && owned <= before.perm.Keys
        invariant Now() == TextEffect(before, done)
        decreases |rest|
      {
        var item := ReadItem(rest, pad);
        if item.End? {
          LastRecord(Read(file, pad), done, item.ending);
          return item.ending.Finished?;
        }
        var r := item.record;
        NextRecord(Read(file, pad), done, r, Read(item.rest, pad));
        assert perm.Keys == before.perm.Keys;
        ok, owned := UnlockPages(r, owned);
        if !ok {
          return;
        }
        CopyRecord(r);
        RewroteMore(before, done, r);
        done := done + [r];
        rest := item.rest;
      }
    }

    /** The copy of one record, stopped after `m` bytes. */
    method CopyStart(r: Record, m: nat)
      requires forall p :: p in PagesOf(r) ==> p in perm && perm[p] == RWX
      modifies this
      ensures bytes == old(bytes) + Overlay(Start(r, m)) && perm == old(perm)
    {
      forall k | Covers(Start(r, m), k)
        ensures PageOf(k) in PagesOf(r)
      {
        CoveredPage(r, k);
      }
      Memcpy(r.addr, Start(r, m).payload);
    }

    /** The reading loop of insert_BOLTed_function for at most `n` records. */
    method ReplayBoltedFor(file: seq<Byte>, pad: nat -> Byte, n: nat)
      returns (ok: bool, owned: set<int>, count: nat, next: Item, ghost done: seq<Record>, ghost after: Reading)
      modifies this
      ensures ok ==> Splits(Read(file, pad), done, after) && count == |done| <= n && owned == AllPages(done)
      ensures ok ==> Unmapped(old(Now()), owned) && Now() == Written(old(Now()), done)
      ensures ok && next.End? ==> after == Reading([], next.ending)
      ensures ok && next.Item? ==> |done| == n && after.records != [] && after.records[0] == next.record
      ensures !ok ==> !Unmapped(old(Now()), AllPages(Begun(Read(file, pad).records, n)))
    {
      hide Read, Replay, Written, Zeros, Protect, AllPages;
      var rest := file;
      count, done := 0, [];
      ghost var before := Now();
      WrittenNothing(before);
      owned := {};
      assert AllPages([]) == {} by { NoPages(); }
      while true
        invariant Splits(Read(file, pad), done, Read(rest, pad))
        invariant owned == AllPages(done) && Unmapped(before, owned) && count == |done| <= n
        invariant Now() == Written(before, done)
        decreases |rest|
      {
        ReadNext(rest, pad);
        next, after := ReadItem(rest, pad), Read(rest, pad);
        if next.End? || count == n {
          return true, owned, count, next, done, after;
        }
        var r := next.record;
        NextRecord(Read(file, pad), done, r, Read(next.rest, pad));
        WrittenMore(before, done, r);
        ok, owned := BoltedRecord(r, owned);
        if !ok {
          PagesGrow(Read(file, pad), done + [r], Read(next.rest, pad), n);
          return;
        }
        done := done + [r];
        count := count + 1;
        rest := next.rest;
      }
    }

    /** The record at which insert_BOLTed_function is stopped. */
    method StartBolted(r: Record, m: nat, owned: set<int>, ghost before: Space, ghost done: seq<Record>) returns (ok: bool)
      requires Now() == Written(before, done) && owned == AllPages(done) && Unmapped(before, owned)
      modifies this
      ensures ok <==> Unmapped(before, AllPages(done + [r]))
      ensures ok ==> Now() == TornNewText(before, done, r, m)
    {
      hide Replay, Written, Zeros, Protect, AllPages;
      WrittenOwned(before, done);
      WrittenMore(before, done, r);
      TornWritten(before, done, r, m);
      PagesMore(done, r);
      ProtectedAre(before.perm, AllPages(done + [r]), RWX);
      var owned';
      ok, owned' := MapPages(r, owned);
      if ok {
        CopyStart(r, m);
      }
    }

    /** insert_BOLTed_function, stopped after `n` records and `m` bytes. */
    method InsertBoltedUntil(file: seq<Byte>, pad: nat -> Byte, n: nat, m: nat) returns (ok: bool, count: nat)
      modifies this
      ensures (if ok then Running(Now()) else Exited) == BoltedUntil(old(Now()), Read(file, pad), n, m)
      ensures ok ==> count == |Begun(Read(file, pad).records, n)|
    {
      hide Read, Written, Protect, AllPages, TornNewText, BoltedEffect;
      var owned, next;
      ghost var done, after;
      ok, owned, count, next, done, after := ReplayBoltedFor(file, pad, n);
      BegunIs(Read(file, pad).records, n);
      if !ok { return; }
      if next.End? {
        LastRecord(Read(file, pad), done, next.ending);
        ok := next.ending.Finished?;
        if ok {
          WrittenOwned(old(Now()), done);
          LockPages(owned);
          LockedWritten(old(Now()), done);
        }
      } else {
        RecordsSoFar(Read(file, pad), done, next.record, Reading(after.records[1..], after.ending));
        count := count + 1;
        ok := StartBolted(next.record, m, owned, old(Now()), done);
      }
    }

    /** insert_code_to_orig_text_sec, stopped after `n` records and `m` bytes. */
    method InsertTextUntil(file: seq<Byte>, pad: nat -> Byte, n: nat, m: nat) returns (ok: bool, count: nat)
      modifies this
      ensures (if ok then Running(Now()) else Exited) == TextUntil(old(Now()), Read(file, pad), n, m)
      ensures ok ==> count == |Begun(Read(file, pad).records, n)|
    {
      hide Read, Replay, Protect;
      var owned: set<int> := {};
      var rest := file;
      count := 0;
      ghost var done: seq<Record> := [];
      ghost var before := Now();
      EffectOfNothing(before);
      while true
        invariant Splits(Read(file, pad), done, Read(rest, pad))
        invariant owned == AllPages(done) && owned <= before.perm.Keys && count == |done| <= n
        invariant Now() == TextEffect(before, done)
        decreases |rest|
      {
        ReadNext(rest, pad);
        var item := ReadItem(rest, pad);
        if item.End? {
          LastRecord(Read(file, pad), done, item.ending);
          return item.ending.Finished?, count;
        }
        var r := item.record;
        NextRecord(Read(file, pad), done, r, Read(item.rest, pad));
        RecordsSoFar(Read(file, pad), done, r, Read(item.rest, pad));
        EffectOwned(before, done);
        ok, owned := UnlockPages(r, owned);
        if !ok {
          PagesGrow(Read(file, pad), done + [r], Read(item.rest, pad), n);
          return;
        }
        UnlockedNow(before, done, r);
        count := count + 1;
        if count == n + 1 {
          CopyStart(r, m);
          TornText(before, done, r, m);
          return;
        }
        CopyRecord(r);
        RewroteMore(before, done, r);
        done := done + [r];
        rest := item.rest;
      }
    }

    /** A later phase of the stopped library; without a file there is none. */
    method TextPhaseUntil(file: Option<seq<Byte>>, pad: nat -> Byte, n: nat, m: nat) returns (ok: bool, stopped: bool, left: nat)
      modifies this
      ensures (if ok then Running(Now()) else Exited) == TextUntil(old(Now()), Stream(file, pad), n, m)
      ensures ok ==> (stopped <==> n < |Stream(file, pad).records|)
      ensures ok && !stopped ==> left == n - |Stream(file, pad).records|
    {
      hide TextUntil, Read;
      NoStream(Now(), n, m);
      ok, stopped, left := true, false, n;
      if file.Some? {
        var count;
        ok, count := InsertTextUntil(file.value, pad, n, m);
        stopped := count > n;
        left := if stopped then 0 else n - count;
      }
    }

    method BoltedPhaseUntil(file: Option<seq<Byte>>, pad: nat -> Byte, n: nat, m: nat) returns (ok: bool, stopped: bool, left: nat)
      modifies this
      ensures (if ok then Running(Now()) else Exited) == BoltedUntil(old(Now()), Stream(file, pad), n, m)
      ensures ok ==> (stopped <==> n < |Stream(file, pad).records|)
      ensures ok && !stopped ==> left == n - |Stream(file, pad).records|
    {
      hide BoltedUntil, Read;
      NoStream(Now(), n, m);
      ok, stopped, left := true, false, n;
      if file.Some? {
        var count;
        ok, count := InsertBoltedUntil(file.value, pad, n, m);
        stopped := count > n;
        left := if stopped then 0 else n - count;
      }
    }

    /** insert_machine_code, stopped after `n` records and `m` bytes of the next. */
    method InsertMachineCodeUntil(files: Files, pads: nat -> nat -> Byte, n: nat, m: nat) returns (ok: bool)
      modifies this
      ensures (if ok then Running(Now()) else Exited) == InsertUntil(old(Now()), files, pads, n, m)
    {
      hide BoltedUntil, TextUntil, Stream, TextsUntil;
      var stopped, left;
      ghost var readings := TextReadings(files, pads);
      ok, stopped, left := BoltedPhaseUntil(files.bolted, pads(1), n, m);
      if !ok || stopped { return; }
      TextsNext(Now(), readings, left, m);
      ok, stopped, left := TextPhaseUntil(files.callSites, pads(2), left, m);
      if !ok || stopped { return; }
      TextsNext(Now(), readings[1..], left, m);
      ok, stopped, left := TextPhaseUntil(files.vTables, pads(3), left, m);
      if !ok || stopped { return; }
      TextsNext(Now(), readings[1..][1..], left, m);
      ok, stopped, left := TextPhaseUntil(files.unmoved, pads(4), left, m);
    }

    /** insert_machine_code. The page set of its last loop is never filled, so
        that loop protects nothing and is not repeated here. */
    method InsertMachineCode(files: Files, pads: nat -> nat -> Byte) returns (ok: bool)
      modifies this
      ensures (if ok then Running(Now()) else Exited) == InsertAll(old(Now()), files, pads)
    {
      if files.bolted.Some? {
        ok := InsertBoltedFunctions(files.bolted.value, pads(1));
        if !ok { return; }
      }
      if files.callSites.Some? {
        ok := InsertCodeToOrigTextSec(files.callSites.value, pads(2));
        if !ok { return; }
      }
      if files.vTables.Some? {
        ok := InsertCodeToOrigTextSec(files.vTables.value, pads(3));
        if !ok { return; }
      }
      if files.unmoved.Some? {
        ok := InsertCodeToOrigTextSec(files.unmoved.value, pads(4));
        if !ok { return; }
      }
      return true;
    }
  }

  lemma ReadNext(file: seq<Byte>, pad: nat -> Byte)
    ensures match ReadItem(file, pad)
      case End(e) => Read(file, pad) == Reading([], e)
      case Item(r, rest) => Read(file, pad) == Reading([r] + Read(rest, pad).records, Read(rest, pad).ending)
  {
  }

  /** The record reached next is the one after those done. */
  lemma RecordsSoFar(whole: Reading, done: seq<Record>, r: Record, rest: Reading)
    requires Splits(whole, done, Reading([r] + rest.records, rest.ending))
    ensures |done| < |whole.records| && whole.records[|done|] == r
    ensures whole.records[..|done|] == done && whole.records[..|done| + 1] == done + [r]
  {
  }

  /** Pages of records begun before are pages of the records begun. */
  lemma PagesGrow(whole: Reading, done: seq<Record>, rest: Reading, n: nat)
    requires Splits(whole, done, rest) && |done| <= n + 1
    ensures AllPages(done) <= AllPages(Begun(whole.records, n))
  {
    var rs := Begun(whole.records, n);
    assert rs == done + rs[|done|..];
    AllPagesAppend(done, rs[|done|..]);
  }

  lemma NoPages()
    ensures AllPages([]) == {}
  {
  }

  lemma PagesMore(done: seq<Record>, r: Record)
    ensures AllPages(done + [r]) == AllPages(done) + PagesOf(r)
  {
    AllPagesAppend(done, [r]);
    assert [r][1..] == [];
  }

  lemma BegunIs(rs: seq<Record>, n: nat)
    ensures Begun(rs, n) == if n < |rs| then rs[..n] + [rs[n]] else rs
  {
  }

  lemma WrittenNothing(s: Space)
    ensures Written(s, []) == s
  {
    ReplayNothing(s);
  }

  lemma EffectOfNothing(s: Space)
    ensures TextEffect(s, []) == s
  {
    ReplayNothing(s);
  }

  lemma EffectOwned(s: Space, done: seq<Record>)
    requires AllPages(done) <= s.perm.Keys
    ensures TextEffect(s, done).perm.Keys == s.perm.Keys
    ensures forall p :: p in AllPages(done) ==> TextEffect(s, done).perm[p] == RWX
  {
  }

  lemma UnlockedNow(s: Space, done: seq<Record>, r: Record)
    ensures forall p :: p in PagesOf(r) ==>
      p in Protect(TextEffect(s, done).perm, PagesOf(r), RWX) && Protect(TextEffect(s, done).perm, PagesOf(r), RWX)[p] == RWX
  {
  }

  /** The pages of one record more, and the start of that record. */
  lemma TornWritten(before: Space, done: seq<Record>, r: Record, m: nat)
    ensures var s := Fresh(Written(before, done), PagesOf(r) - AllPages(done));
      Space(s.bytes + Overlay(Start(r, m)), s.perm) == TornNewText(before, done, r, m)
  {
    var owned := AllPages(done);
    AllPagesAppend(done, [r]);
    assert [r][1..] == [];
    assert owned + (PagesOf(r) - owned) == AllPages(done + [r]);
    ZerosCommute(before.bytes, PagesOf(r) - owned, done);
    ReplayOne(before.bytes + Zeros(AllPages(done + [r])), done, Start(r, m));
    ProtectMore(before.perm, owned, PagesOf(r) - owned, RWX);
  }

  lemma TornText(before: Space, done: seq<Record>, r: Record, m: nat)
    ensures var s := TextEffect(before, done);
      Space(s.bytes + Overlay(Start(r, m)), Protect(s.perm, PagesOf(r), RWX))
        == Space(Replay(before.bytes, done + [Start(r, m)]), Protect(before.perm, AllPages(done + [r]), RWX))
  {
    AllPagesAppend(done, [r]);
    assert [r][1..] == [];
    ReplayOne(before.bytes, done, Start(r, m));
    ProtectMore(before.perm, AllPages(done), PagesOf(r), RWX);
  }

  lemma WrittenOwned(s: Space, done: seq<Record>)
    ensures AllPages(done) <= Written(s, done).perm.Keys
  {
  }

  /** One later phase, and those after it. */
  lemma TextsNext(s: Space, readings: seq<Reading>, n: nat, m: nat)
    requires readings != []
    ensures var one, count := TextUntil(s, readings[0], n, m), |readings[0].records|;
      TextsUntil(s, readings, n, m) == if one.Exited? || n < count then one else TextsUntil(one.space, readings[1..], n - count, m)
    ensures |readings| == 1 ==> TextsUntil(s, readings, n, m) == TextUntil(s, readings[0], n, m)
  {
  }

  lemma NoStream(s: Space, n: nat, m: nat)
    ensures BoltedUntil(s, Reading([], Finished), n, m) == Running(s) == TextUntil(s, Reading([], Finished), n, m)
  {
    EmptyPhase(s);
  }

  /** `whole` is what was replayed so far, and then what `rest` still reads. */
  predicate Splits(whole: Reading, done: seq<Record>, rest: Reading) {
    whole == Reading(done + rest.records, rest.ending)
  }

  lemma NextRecord(whole: Reading, done: seq<Record>, r: Record, rest: Reading)
    requires Splits(whole, done, Reading([r] + rest.records, rest.ending))
    ensures Splits(whole, done + [r], rest)
    ensures AllPages(done + [r]) == AllPages(done) + PagesOf(r)
    ensures PagesOf(r) <= AllPages(whole.records)
  {
    assert done + ([r] + rest.records) == done + [r] + rest.records;
    AllPagesAppend(done, [r]);
    AllPagesAppend(done + [r], rest.records);
    assert [r][1..] == [];
  }

  lemma LastRecord(whole: Reading, done: seq<Record>, ending: Ending)
    requires Splits(whole, done, Reading([], ending))
    ensures whole == Reading(done, ending)
  {
    assert done + [] == done;
  }

  lemma ReplayNothing(s: Space)
    ensures Protect(s.perm, {}, RWX) == s.perm && s.bytes + Zeros({}) == s.bytes
    ensures TextEffect(s, []) == s
  {
  }

  lemma ProtectOne(perm: map<int, Perm>, pages: set<int>, page: int, v: Perm)
    ensures Protect(perm, pages, v)[page := v] == Protect(perm, pages + {page}, v)
  {
  }

  lemma ProtectedAre(perm: map<int, Perm>, pages: set<int>, v: Perm)
    ensures forall p :: p in pages ==> p in Protect(perm, pages, v) && Protect(perm, pages, v)[p] == v
  {
  }

  lemma ProtectMore(perm: map<int, Perm>, s: set<int>, t: set<int>, v: Perm)
    ensures Protect(Protect(perm, s, v), t, v) == Protect(perm, s + t, v)
  {
  }

  /** Pages made read-only and executable. */
  function Locked(s: Space, pages: set<int>): Space {
    Space(s.bytes, Protect(s.perm, pages, RX))
  }

  lemma LockedMore(s: Space, owned: set<int>, todo: set<int>, page: int)
    requires page in todo && todo <= owned
    ensures var l := Locked(s, owned - todo);
      Space(l.bytes, l.perm[page := RX]) == Locked(s, owned - (todo - {page}))
  {
    ProtectOne(s.perm, owned - todo, page, RX);
    assert owned - (todo - {page}) == owned - todo + {page};
  }

  lemma LockedWritten(s: Space, rs: seq<Record>)
    ensures Locked(Written(s, rs), AllPages(rs)) == BoltedEffect(s, rs)
  {
    hide Replay, Zeros, AllPages, Protect;
    Reprotect(s.perm, AllPages(rs), RWX, RX);
  }

  lemma Reprotect(perm: map<int, Perm>, pages: set<int>, v: Perm, w: Perm)
    ensures Protect(Protect(perm, pages, v), pages, w) == Protect(perm, pages, w)
  {
  }

  /** New text pages mapped and filled, still writable. */
  function Written(s: Space, rs: seq<Record>): Space {
    Space(Replay(s.bytes + Zeros(AllPages(rs)), rs), Protect(s.perm, AllPages(rs), RWX))
  }

  lemma WrittenMore(before: Space, done: seq<Record>, r: Record)
    ensures Copied(Fresh(Written(before, done), PagesOf(r) - AllPages(done)), r) == Written(before, done + [r])
    ensures AllPages(done) <= Written(before, done).perm.Keys
    ensures forall p :: p in AllPages(done) ==> Written(before, done).perm[p] == RWX
    ensures Unmapped(Written(before, done), PagesOf(r) - AllPages(done))
       <==> Unmapped(before, PagesOf(r) - AllPages(done))
  {
    var owned := AllPages(done);
    AllPagesAppend(done, [r]);
    assert [r][1..] == [];
    assert owned + (PagesOf(r) - owned) == AllPages(done + [r]);
    ZerosCommute(before.bytes, PagesOf(r) - owned, done);
    ReplayOne(before.bytes + Zeros(AllPages(done + [r])), done, r);
    ProtectMore(before.perm, owned, PagesOf(r) - owned, RWX);
  }

  lemma RewroteMore(before: Space, done: seq<Record>, r: Record)
    ensures var s := TextEffect(before, done);
      Space(s.bytes + Overlay(r), Protect(s.perm, PagesOf(r), RWX)) == TextEffect(before, done + [r])
  {
    AllPagesAppend(done, [r]);
    assert [r][1..] == [];
    ReplayOne(before.bytes, done, r);
    ProtectMore(before.perm, AllPages(done), PagesOf(r), RWX);
  }

  /** The pages of a record before page `p`. */
  function Visited(r: Record, p: int): set<int> {
    set q | q in PagesOf(r) && q < p
  }

  lemma VisitedNext(r: Record, p: int)
    requires p in PagesOf(r)
    ensures Visited(r, p + 1) == Visited(r, p) + {p}
  {
  }

  predicate Unmapped(s: Space, pages: set<int>) { pages !! s.perm.Keys }

  /** The pages of a record before `page` are mapped, unless owned already. */
  predicate MappedUpTo(now: Space, before: Space, r: Record, owned: set<int>, page: int, owned': set<int>) {
    && owned' == owned + Visited(r, page)
    && Unmapped(before, Visited(r, page) - owned)
    && now == Fresh(before, Visited(r, page) - owned)
  }

  lemma NoneVisited(before: Space, r: Record, owned: set<int>)
    ensures MappedUpTo(before, before, r, owned, PageOf(r.addr), owned)
  {
    assert Visited(r, PageOf(r.addr)) == {};
    assert Visited(r, PageOf(r.addr)) - owned == {};
    ReplayNothing(before);
  }

  /** One more page: known already, or to be mapped. */
  lemma OneMorePage(now: Space, before: Space, r: Record, owned: set<int>, p: int, owned': set<int>)
    requires p in PagesOf(r) && p !in Visited(r, p)
    requires MappedUpTo(now, before, r, owned, p, owned')
    ensures var more := {p} - owned';
      && (Unmapped(now, more) ==> MappedUpTo(Fresh(now, more), before, r, owned, p + 1, owned' + {p}))
      && (!Unmapped(now, more) ==> !Unmapped(before, PagesOf(r) - owned))
  {
    VisitedNext(r, p);
    var more := {p} - owned';
    FreshMore(before, Visited(r, p) - owned, more);
    assert Visited(r, p + 1) - owned == Visited(r, p) - owned + more;
  }

  /** The loop condition on byte offsets, in page numbers. */
  lemma LoopPage(r: Record, p: int)
    requires PageOf(r.addr) <= p
    ensures p * PAGE <= r.addr + |r.payload| + PAGE <==> p in PagesOf(r)
    ensures p !in PagesOf(r) ==> Visited(r, p) == PagesOf(r)
    ensures p !in Visited(r, p)
  {
    LoopBound(r.addr + |r.payload|, p);
  }

  lemma LoopBound(end: int, p: int)
    ensures p * PAGE <= end + PAGE <==> p <= PageOf(end) + 1
  {
  }

  lemma {:induction false} AllPagesAppend(rs: seq<Record>, ss: seq<Record>)
    ensures AllPages(rs + ss) == AllPages(rs) + AllPages(ss)
  {
    if rs == [] {
      assert rs + ss == ss;
    } else {
      AllPagesAppend(rs[1..], ss);
      assert (rs + ss)[1..] == rs[1..] + ss;
    }
  }

  /** Zeroing pages no record so far touches commutes with the records. */
  lemma ZerosCommute(mem: Memory, more: set<int>, done: seq<Record>)
    requires AllPages(done) !! more
    ensures Replay(mem + Zeros(AllPages(done)), done) + Zeros(more)
         == Replay(mem + Zeros(AllPages(done) + more), done)
  {
    forall r, k | r in done && k in Zeros(more)
      ensures !Covers(r, k)
    {
      if Covers(r, k) {
        CoveredPage(r, k);
        PageVisited(done, PageOf(k));
        assert false;
      }
    }
    UntouchedCommute(mem + Zeros(AllPages(done)), Zeros(more), done);
    ZerosAdd(mem, AllPages(done), more);
  }

  lemma ZerosAdd(mem: Memory, s: set<int>, t: set<int>)
    ensures mem + Zeros(s) + Zeros(t) == mem + Zeros(s + t)
  {
  }

  lemma {:induction false} UntouchedCommute(mem: Memory, z: Memory, rs: seq<Record>)
    requires forall r, k :: r in rs && k in z ==> !Covers(r, k)
    ensures Replay(mem, rs) + z == Replay(mem + z, rs)
    decreases |rs|
  {
    if rs != [] {
      UntouchedCommute(mem + Overlay(rs[0]), z, rs[1..]);
      CommuteOne(mem, z, rs[0]);
    }
  }

  lemma CommuteOne(mem: Memory, z: Memory, r: Record)
    requires forall k :: k in z ==> !Covers(r, k)
    ensures mem + Overlay(r) + z == mem + z + Overlay(r)
  {
  }

  // The four phases together

  /** The records a phase replays: none when its file is missing. */
  function Stream(file: Option<seq<Byte>>, pad: nat -> Byte): Reading {
    if file.None? then Reading([], Finished) else Read(file.value, pad)
  }

  /** The records of the three phases that rewrite existing pages. */
  function TextRecords(files: Files, pads: nat -> nat -> Byte): seq<Record> {
    Stream(files.callSites, pads(2)).records + Stream(files.vTables, pads(3)).records
      + Stream(files.unmoved, pads(4)).records
  }

  function BoltedRecords(files: Files, pads: nat -> nat -> Byte): seq<Record> {
    Stream(files.bolted, pads(1)).records
  }

  predicate AllFinished(files: Files, pads: nat -> nat -> Byte) {
    && Stream(files.bolted, pads(1)).ending.Finished?
    && Stream(files.callSites, pads(2)).ending.Finished?
    && Stream(files.vTables, pads(3)).ending.Finished?
    && Stream(files.unmoved, pads(4)).ending.Finished?
  }

  lemma EmptyPhase(s: Space)
    ensures TextReplay(s, Reading([], Finished)) == Running(s)
    ensures BoltedReplay(s, Reading([], Finished)) == Running(s)
  {
    ReplayNothing(s);
    assert Protect(s.perm, {}, RX) == s.perm;
  }

  lemma PhaseIsStream(s: Space, file: Option<seq<Byte>>, pad: nat -> Byte)
    ensures TextPhase(s, file, pad) == TextReplay(s, Stream(file, pad))
    ensures BoltedPhase(s, file, pad) == BoltedReplay(s, Stream(file, pad))
  {
    EmptyPhase(s);
  }

  /** Two text phases that succeed are one over both streams. */
  lemma TextTwice(s: Space, rs: seq<Record>, ss: seq<Record>)
    requires AllPages(rs) <= s.perm.Keys
    ensures TextEffect(TextEffect(s, rs), ss) == TextEffect(s, rs + ss)
    ensures TextEffect(s, rs).perm.Keys == s.perm.Keys
    ensures AllPages(rs + ss) == AllPages(rs) + AllPages(ss)
  {
    ReplayAppend(s.bytes, rs, ss);
    AllPagesAppend(rs, ss);
    ProtectMore(s.perm, AllPages(rs), AllPages(ss), RWX);
  }

  /** The insertion succeeds exactly when every stream is well formed, the new
      text is mapped nowhere yet, and the rewritten pages are mapped; its
      result is then one replay of all records in phase order. */
  lemma InsertionEffect(s: Space, files: Files, pads: nat -> nat -> Byte)
    ensures var bolted, text := BoltedRecords(files, pads), TextRecords(files, pads);
      InsertAll(s, files, pads) ==
        if && AllFinished(files, pads)
           && AllPages(bolted) !! s.perm.Keys
           && AllPages(text) <= s.perm.Keys + AllPages(bolted)
        then Running(TextEffect(BoltedEffect(s, bolted), text)) else Exited
  {
    var r2, r3, r4 := Stream(files.callSites, pads(2)), Stream(files.vTables, pads(3)), Stream(files.unmoved, pads(4));
    PhaseIsStream(s, files.bolted, pads(1));
    AllPagesAppend(r2.records, r3.records);
    AllPagesAppend(r2.records + r3.records, r4.records);
    var one := BoltedPhase(s, files.bolted, pads(1));
    if one.Running? {
      PhaseIsStream(one.space, files.callSites, pads(2));
      var two := TextPhase(one.space, files.callSites, pads(2));
      if two.Running? {
        PhaseIsStream(two.space, files.vTables, pads(3));
        TextTwice(one.space, r2.records, r3.records);
        var three := TextPhase(two.space, files.vTables, pads(3));
        if three.Running? {
          PhaseIsStream(three.space, files.unmoved, pads(4));
          TextTwice(one.space, r2.records + r3.records, r4.records);
        }
      }
    }
  }

  /** `reading` is what can be read of a stream of the records `rs`. */
  predicate ReadingOf(reading: Reading, rs: seq<Record>) {
    reading.records <= rs && (reading.ending.Finished? ==> reading.records == rs)
  }

  /** The records of several streams. */
  function Joined(streams: seq<seq<Record>>): seq<Record> {
    if streams == [] then [] else streams[0] + Joined(streams[1..])
  }

  lemma JoinThree(a: seq<Record>, b: seq<Record>, c: seq<Record>)
    ensures Joined([a, b, c]) == a + b + c
  {
    assert [a, b, c][1..] == [b, c] && [b, c][1..] == [c] && [c][1..] == [];
    assert Joined([c]) == c && Joined([b, c]) == b + c;
  }

  /** A library that is not stopped before its last record does all it does. */
  lemma NotStopped(s: Space, files: Files, pads: nat -> nat -> Byte, n: nat, m: nat)
    requires n >= |BoltedRecords(files, pads)| + |TextRecords(files, pads)|
    ensures InsertUntil(s, files, pads, n, m) == InsertAll(s, files, pads)
  {
    hide BoltedReplay, TextReplay, BoltedPhase, TextPhase, Stream, TextsUntil;
    var readings := TextReadings(files, pads);
    PhaseIsStream(s, files.bolted, pads(1));
    var one := BoltedPhase(s, files.bolted, pads(1));
    if one.Running? {
      var n1 := n - |BoltedRecords(files, pads)|;
      PhaseIsStream(one.space, files.callSites, pads(2));
      TextsNext(one.space, readings, n1, m);
      var two := TextPhase(one.space, files.callSites, pads(2));
      if two.Running? {
        var n2 := n1 - |readings[0].records|;
        PhaseIsStream(two.space, files.vTables, pads(3));
        TextsNext(two.space, readings[1..], n2, m);
        var three := TextPhase(two.space, files.vTables, pads(3));
        if three.Running? {
          PhaseIsStream(three.space, files.unmoved, pads(4));
          TextsNext(three.space, readings[1..][1..], n2 - |readings[1].records|, m);
        }
      }
    }
  }

  /** Later phases stopped anywhere have copied a torn prefix of their streams. */
  lemma {:induction false} TextsStopped(s: Space, readings: seq<Reading>, streams: seq<seq<Record>>, n: nat, m: nat)
    requires |readings| == |streams| && forall i :: 0 <= i < |readings| ==> ReadingOf(readings[i], streams[i])
    requires TextsUntil(s, readings, n, m).Running?
    ensures TextsUntil(s, readings, n, m).space.bytes == Replay(s.bytes, Torn(Joined(streams), n, m))
    decreases |readings|
  {
    hide TextUntil, Torn;
    if readings == [] {
      TornWhole([], n, m);
    } else {
      var first, rest := readings[0], streams[1..];
      TextStopped(s, first, streams[0], n, m);
      TornAppend(streams[0], Joined(rest), n, m);
      if n >= |first.records| {
        var one, left := TextUntil(s, first, n, m).space, n - |first.records|;
        TextsStopped(one, readings[1..], rest, left, m);
        TornWhole(streams[0], n, m);
        ReplayAppend(s.bytes, streams[0], Torn(Joined(rest), left, m));
      }
    }
  }

  /** A library that would come to its end can be stopped anywhere before. */
  lemma StopsOnTheWay(s: Space, files: Files, pads: nat -> nat -> Byte, n: nat, m: nat)
    requires InsertAll(s, files, pads).Running?
    ensures InsertUntil(s, files, pads, n, m).Running?
  {
    hide TextUntil, BoltedUntil, Stream, TextsUntil, TextReplay, BoltedReplay;
    var readings := TextReadings(files, pads);
    PhaseIsStream(s, files.bolted, pads(1));
    BoltedStops(s, Stream(files.bolted, pads(1)), n, m);
    if n >= |Stream(files.bolted, pads(1)).records| {
      var n1 := n - |Stream(files.bolted, pads(1)).records|;
      var one := BoltedPhase(s, files.bolted, pads(1)).space;
      PhaseIsStream(one, files.callSites, pads(2));
      TextsNext(one, readings, n1, m);
      TextStops(one, readings[0], n1, m);
      if n1 >= |readings[0].records| {
        var n2 := n1 - |readings[0].records|;
        var two := TextPhase(one, files.callSites, pads(2)).space;
        PhaseIsStream(two, files.vTables, pads(3));
        TextsNext(two, readings[1..], n2, m);
        TextStops(two, readings[1], n2, m);
        if n2 >= |readings[1].records| {
          var n3 := n2 - |readings[1].records|;
          var three := TextPhase(two, files.vTables, pads(3)).space;
          PhaseIsStream(three, files.unmoved, pads(4));
          TextsNext(three, readings[1..][1..], n3, m);
          TextStops(three, readings[2], n3, m);
        }
      }
    }
  }

  lemma BoltedStops(s: Space, reading: Reading, n: nat, m: nat)
    requires BoltedReplay(s, reading).Running?
    ensures BoltedUntil(s, reading, n, m).Running?
    ensures n >= |reading.records| ==> BoltedUntil(s, reading, n, m) == BoltedReplay(s, reading)
  {
    BegunIs(reading.records, n);
    BegunPages(reading.records, n);
  }

  lemma TextStops(s: Space, reading: Reading, n: nat, m: nat)
    requires TextReplay(s, reading).Running?
    ensures TextUntil(s, reading, n, m).Running?
    ensures n >= |reading.records| ==> TextUntil(s, reading, n, m) == TextReplay(s, reading)
  {
    BegunPages(reading.records, n);
  }

  lemma BegunPages(rs: seq<Record>, n: nat)
    ensures AllPages(Begun(rs, n)) <= AllPages(rs)
  {
    if n < |rs| {
      assert rs == rs[..n + 1] + rs[n + 1..];
      AllPagesAppend(rs[..n + 1], rs[n + 1..]);
    }
  }

  /** Stopped anywhere, the library has copied a torn prefix of all records, the
      first of them to pages that were not mapped before. */
  lemma StoppedEffect(s: Space, files: Files, pads: nat -> nat -> Byte, bolted: seq<Record>, texts: seq<seq<Record>>, n: nat, m: nat)
    requires ReadingOf(Stream(files.bolted, pads(1)), bolted)
    requires |texts| == 3 && forall i :: 0 <= i < 3 ==> ReadingOf(TextReadings(files, pads)[i], texts[i])
    requires InsertUntil(s, files, pads, n, m).Running?
    ensures AllPages(Begun(bolted, n)) !! s.perm.Keys
    ensures InsertUntil(s, files, pads, n, m).space.bytes
         == Replay(s.bytes + Zeros(AllPages(Begun(bolted, n))), Torn(bolted + Joined(texts), n, m))
  {
    hide Stream, Zeros, AllPages, Protect, Replay, Torn, TextsUntil, Joined;
    var reading, text := Stream(files.bolted, pads(1)), Joined(texts);
    TornAppend(bolted, text, n, m);
    BegunIs(bolted, n);
    TornIs(bolted, n, m);
    if n < |reading.records| {
      TornPrefix(reading.records, bolted, n, m);
    } else {
      var one := BoltedUntil(s, reading, n, m).space;
      TextsStopped(one, TextReadings(files, pads), texts, n - |bolted|, m);
      ReplayAppend(s.bytes + Zeros(AllPages(bolted)), bolted, Torn(text, n - |bolted|, m));
    }
  }

  lemma TextStopped(s: Space, reading: Reading, rs: seq<Record>, n: nat, m: nat)
    requires ReadingOf(reading, rs) && TextUntil(s, reading, n, m).Running?
    ensures TextUntil(s, reading, n, m).space.bytes == Replay(s.bytes, Torn(rs, n, m))
    ensures n >= |reading.records| ==> reading.records == rs
    ensures n < |reading.records| ==> n < |rs|
  {
    if n < |reading.records| {
      TornPrefix(reading.records, rs, n, m);
    }
  }

  lemma TornPrefix(part: seq<Record>, rs: seq<Record>, n: nat, m: nat)
    requires part <= rs && n < |part|
    ensures Torn(part, n, m) == Torn(rs, n, m) && part[n] == rs[n] && part[..n] == rs[..n]
  {
  }

  lemma TornIs(rs: seq<Record>, n: nat, m: nat)
    ensures n < |rs| ==> Torn(rs, n, m) == rs[..n] + [Start(rs[n], m)]
  {
  }

  lemma TornWhole(rs: seq<Record>, n: nat, m: nat)
    ensures n >= |rs| ==> Torn(rs, n, m) == rs
  {
  }

  /** Page permissions and bytes after a successful insertion: rewritten pages
      are left writable, new text pages become read-only unless a later phase
      reaches them, and nothing else changes. */
  lemma PermissionOutcome(s: Space, files: Files, pads: nat -> nat -> Byte, p: int, k: int)
    requires InsertAll(s, files, pads).Running?
    ensures var t, bolted, text := InsertAll(s, files, pads).space, BoltedRecords(files, pads), TextRecords(files, pads);
      && (p in t.perm <==> p in s.perm || p in AllPages(bolted))
      && (p in t.perm ==> t.perm[p] == if p in AllPages(text) then RWX else if p in AllPages(bolted) then RX else s.perm[p])
      && (PageOf(k) in s.perm && !Covered(bolted + text, k) ==>
           (k in t.bytes <==> k in s.bytes) && (k in t.bytes ==> t.bytes[k] == s.bytes[k]))
  {
    InsertionEffect(s, files, pads);
    var bolted, text := BoltedRecords(files, pads), TextRecords(files, pads);
    var filled := s.bytes + Zeros(AllPages(bolted));
    ReplayAppend(filled, bolted, text);
    if PageOf(k) in s.perm && !Covered(bolted + text, k) {
      ReplayOutside(filled, bolted + text, k);
    }
  }

  /** The permissions themselves: new text that no later phase reaches can be read
      and executed and not written, rewritten pages can be written as well. */
  lemma PermissionBits(s: Space, files: Files, pads: nat -> nat -> Byte, p: int)
    requires InsertAll(s, files, pads).Running?
    ensures var perm := InsertAll(s, files, pads).space.perm;
      && (p in AllPages(TextRecords(files, pads)) ==> p in perm && perm[p].read && perm[p].write && perm[p].exec)
      && (p in AllPages(BoltedRecords(files, pads)) && p !in AllPages(TextRecords(files, pads)) ==>
            p in perm && perm[p].read && !perm[p].write && perm[p].exec)
  {
    InsertionEffect(s, files, pads);
    PermissionOutcome(s, files, pads, p, p * PAGE);
  }

  /** Without files nothing happens: a phase without a file is skipped. */
  lemma NothingToInsert(s: Space, files: Files, pads: nat -> nat -> Byte)
    requires files == Files(None, None, None, None)
    ensures InsertAll(s, files, pads) == Running(s)
  {
  }

  /** Exactly the bytes of mapped pages exist. */
  ghost predicate Mapped(s: Space) {
    forall k :: k in s.bytes <==> PageOf(k) in s.perm
  }

  /** No byte is ever written outside a mapped page. */
  lemma StaysMapped(s: Space, files: Files, pads: nat -> nat -> Byte)
    requires Mapped(s) && InsertAll(s, files, pads).Running?
    ensures Mapped(InsertAll(s, files, pads).space)
  {
    InsertionEffect(s, files, pads);
    var bolted, text := BoltedRecords(files, pads), TextRecords(files, pads);
    var filled := s.bytes + Zeros(AllPages(bolted));
    ReplayAppend(filled, bolted, text);
    AllPagesAppend(bolted, text);
    forall k
      ensures k in Replay(filled, bolted + text) <==> PageOf(k) in s.perm.Keys + AllPages(bolted + text)
    {
      ReplayKeys(filled, bolted + text, k);
      CoveredPages(bolted + text, k);
    }
  }

  lemma CoveredPages(rs: seq<Record>, k: int)
    ensures Covered(rs, k) ==> PageOf(k) in AllPages(rs)
  {
    if Covered(rs, k) {
      var r :| r in rs && Covers(r, k);
      CoveredPage(r, k);
      PageVisited(rs, PageOf(k));
    }
  }
}
