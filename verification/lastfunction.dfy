/** Why the last function has to be quiet: a process that meets every other
    assumption of the replacement theorem, has a frame inside the last function
    of its image, and behaves differently afterwards. */
module LastFunction {
  import opened Words
  import opened Code
  import opened Records
  import opened Rel32
  import opened CallStack
  import opened Machine
  import opened Replacement
  import opened Insertion
  import opened Tracer
  import opened Example
  import Boundaries

  /** The stack addresses of the example, and one more, in the last function. */
  const LATE: seq<int> := IPS + [4150]

  function LatePlan(): Plan { PlanAt(LATE) }

  /** One thread stopped on the return of the last function. */
  function LateProcess(): Process<int> { Process(0, [Thread(4150, [4101])]) }

  /** The lookup finds the caller, not the function the thread is in. */
  lemma LateStack()
    ensures TwoFrames(LATE)
    ensures forall i :: 0 <= i < |LATE| ==> LATE[i] > 4096
  {
    assert LATE == [4135, 4101, 4108, 4150];
    StackIs(LATE);
    hide TwoFrames;
  }

  lemma LateFrames()
    ensures Unwound(LatePlan(), LateProcess())
  {
    hide Old, New, Rel32Bytes;
    assert LATE == [4135, 4101, 4108, 4150];
    assert LATE[1] == 4101 && LATE[3] == 4150;
  }

  lemma LastIsBusy()
    ensures !LastFunctionQuiet(LatePlan())
  {
    hide Old, New, Rel32Bytes;
    assert LATE == [4135, 4101, 4108, 4150];
    assert IsLast(FUNCS, 4144) && StrictlyInside(FUNCS, 4144, LATE[3]);
  }

  /** Where the thread stood there is another instruction now. */
  lemma Overwritten(base: Memory)
    requires PlanFine(LatePlan(), TheLink())
    ensures Fetch(Old(), 4150) == DoRet
    ensures Fetch(After(LatePlan(), base), 4150) == DoOp(0x90, 4151)
  {
    NewLies();
    hide Old, New, Decode, After, ProgramFine, RecordsFine, PatchesFine, BoltFine, EntriesFresh, SlotsFine, Rel32Bytes;
    LastDecodes();
    var r := Record(4144, LAST);
    assert r in LatePlan().unmovedRecs && Covers(r, 4150);
    ByteFromImage(LatePlan(), base, r, 4150);
    assert New()[4150] == LAST[6];
    PlainOp(After(LatePlan(), base), 4150);
  }

  lemma PlainOp(m: Memory, a: int)
    requires a in m && m[a] == 0x90
    ensures Decode(m, a) == Inst(Op(0x90), 1)
  {
  }

  /** The old process can return at once; the new one cannot. */
  lemma BehaviourDiffers<D>(P: Image, Q: Image, cpu: Cpu<D>, p: Process<D>, pc: int, next: int)
    requires |p.threads| == 1 && p.threads[0].pc == pc && p.threads[0].stack != []
    requires Fetch(P.mem, pc) == DoRet && Fetch(Q.mem, pc) == DoOp(0x90, next)
    ensures !SameBehaviour(P, p, Q, p, cpu)
  {
    var trace := [Left(0)];
    assert Run(P, cpu, p, [0]).events == trace by {
      assert [0][1..] == [];
      assert Run(P, cpu, Step(P, cpu, p, 0).proc, []).events == [];
    }
    assert HasTrace(P, cpu, p, trace);
    forall schedule | Run(Q, cpu, p, schedule).Moved?
      ensures Run(Q, cpu, p, schedule).events != trace
    {
      NeverReturnsFirst(Q, cpu, p, pc, next, schedule);
    }
    assert !HasTrace(Q, cpu, p, trace);
  }

  lemma NeverReturnsFirst<D>(Q: Image, cpu: Cpu<D>, p: Process<D>, pc: int, next: int, schedule: seq<nat>)
    requires |p.threads| == 1 && p.threads[0].pc == pc && Fetch(Q.mem, pc) == DoOp(0x90, next)
    requires Run(Q, cpu, p, schedule).Moved?
    ensures Run(Q, cpu, p, schedule).events == [] || Run(Q, cpu, p, schedule).events[0] == Did(0, 0x90)
  {
  }

  /** Every assumption but one holds, the insertion goes through, and the process
      behaves differently. */
  lemma QuietIsNeeded(cpu: Cpu<int>, pads: nat -> nat -> Byte)
    requires PicksWorker(cpu)
    ensures AllFine(LATE, pads) && Unwound(LatePlan(), LateProcess())
    ensures CallsEntries(OldImage(LatePlan()), Entries(LatePlan()), cpu, LateProcess())
    ensures !LastFunctionQuiet(LatePlan()) && EntriesFresh(LatePlan())
    ensures !SameBehaviour(OldImage(LatePlan()), LateProcess(),
      Image(InsertAll(TheSpace(), FilesOf(LatePlan()), pads).space.bytes, NewNames(LatePlan())), LateProcess(), cpu)
  {
    hide Prepared, NumbersFine, InputsFine, PlanWritten, WorldFine, Boundaries.NewTextFresh, Unwound, LastFunctionQuiet, CallsEntries, Entries;
    hide Old, New, OnStack, Rel32Bytes, SameBehaviour, Mapped, AllPages, InsertAll, FilesOf, TwoFrames, PicksWorker, After, NewNames, Base, Fetch;
    hide ProgramFine, BoltFine, RecordsFine, PatchesFine, SlotsFine, EntriesFresh;
    var pl := LatePlan();
    LateStack();
    LateFrames();
    LastIsBusy();
    AllIsFine(LATE, pads);
    WorkerPicked(LATE, cpu, LateProcess());
    WorldGivesPlan(TheBinary(), INPUT, pl, TheLink());
    InsertionRunsPlan(INPUT, pl, TheSpace(), pads);
    Overwritten(Base(TheSpace(), pl));
    BehaviourDiffers(OldImage(pl), Image(After(pl, Base(TheSpace(), pl)), NewNames(pl)), cpu, LateProcess(), 4150, 4151);
  }
}
