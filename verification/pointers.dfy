/** Where the hook pass and code replacement meet: with a hook that knows the new
    entries, what a hooked function stores after the replacement is what it
    stored before, the address of the original entry. */
module Pointers {
  import opened Code
  import opened Machine
  import opened Replacement
  import HookPass

  /** `w` is the program as linked, function `f` at the entry `place(f)`. */
  ghost predicate LinkedAt(pl: Plan, w: HookPass.World, place: int -> int) {
    forall f :: w.address(f) == place(f) && place(f) in Entries(pl)
  }

  /** `v` is the BOLTed program: functions at their old or new entries, and a hook
      that answers with the name of what it is given. */
  ghost predicate BoltedAt(pl: Plan, base: Memory, v: HookPass.World, place: int -> int)
    requires EntriesFresh(pl)
  {
    && (forall f :: v.address(f) == place(f) || v.address(f) == Rename(pl, place(f)))
    && (forall x :: v.hook(x) == NameOf(NewImage(pl, base), x))
  }

  lemma HookKnowsEntries(pl: Plan, base: Memory, w: HookPass.World, v: HookPass.World, place: int -> int)
    requires EntriesFresh(pl) && LinkedAt(pl, w, place) && BoltedAt(pl, base, v, place)
    ensures HookPass.HookAnswers(w, v)
  {
    hide EntriesFresh, NameOf, Rename, IsEntry;
    forall f
      ensures v.hook(v.address(f)) == w.address(f)
    {
      assert place(f) in Entries(pl);
      NamesAgree(pl, base, place(f));
    }
  }

  /** A rewritten function of the BOLTed program reaches the memory that the
      function of the original program reached: every pointer it leaves there
      names an original entry, as the replacement assumes of the pointers that
      are called. */
  lemma StoredPointersOriginal(pl: Plan, base: Memory, w: HookPass.World, v: HookPass.World, place: int -> int,
                               f: HookPass.Func, g: HookPass.Func, names: map<HookPass.Point, int>, skip: set<int>,
                               first: int, limit: int, c: HookPass.Config, n: nat)
    requires EntriesFresh(pl) && LinkedAt(pl, w, place) && BoltedAt(pl, base, v, place)
    requires HookPass.SameElse(w, v) && HookPass.FuncFits(w, v, names, f) && HookPass.FuncBelow(f, first)
    requires HookPass.HookedAt(f, g, names, skip, first, limit)
    ensures HookPass.Run(v, g, c, n).state.mem == HookPass.Run(w, f, c, n).state.mem
    ensures HookPass.Run(v, g, c, n).block == HookPass.Run(w, f, c, n).block
  {
    hide EntriesFresh, LinkedAt, BoltedAt, HookPass.SameElse, HookPass.FuncFits, HookPass.FuncBelow, HookPass.HookedAt, HookPass.Run;
    HookKnowsEntries(pl, base, w, v, place);
    HookPass.PassHidesMoves(w, v, f, g, names, skip, first, limit, c, c, n);
  }
}
