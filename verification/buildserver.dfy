/** The build-accelerator server (build-accelerator/rca-clang/src/server/main.rs):
    connections handled one after the other, a background build started once,
    and the batches of profile conversions inside it. */
module BuildServer {

  const NUM_PERF_DATA: int := 10
  const NUM_PERF2BOLT_IN_PARALLEL: int := 4

  /** The three ways to handle a connection. */
  datatype Handler = RunPerf | NotRunPerf | RunBolted

  datatype Reply = StartPerf | RunWithoutPerf | RunBoltedBinary | NoReply

  /** What a handler answers; `message` is None when the read fails. */
  function Answer(h: Handler, message: Message): Reply {
    match message
    case Unreadable => NoReply
    case Text(t) =>
      match h
      case RunPerf => if |t| >= 16 && t[..16] == "clang invocation" then StartPerf else RunWithoutPerf
      case NotRunPerf => RunWithoutPerf
      case RunBolted => RunBoltedBinary
  }

  /** What the three handlers answer, by the text they read. */
  lemma Answers(t: string)
    ensures Answer(RunPerf, Text("clang invocation" + t)) == StartPerf
    ensures |t| < 16 || t[..16] != "clang invocation" ==> Answer(RunPerf, Text(t)) == RunWithoutPerf
    ensures Answer(NotRunPerf, Text(t)) == RunWithoutPerf
    ensures Answer(RunBolted, Text(t)) == RunBoltedBinary
    ensures forall h :: Answer(h, Unreadable) == NoReply
  {
    assert ("clang invocation" + t)[..16] == "clang invocation";
  }

  datatype Message = Unreadable | Text(t: string)

  /** The background thread: waiting, converting, merging, optimising, done, or
      dead after a panic. */
  datatype Build = NotStarted | Waiting | Converting | Merging | Optimising | Finished | Panicked

  function NextStage(b: Build): Build {
    match b
    case Waiting => Converting
    case Converting => Merging
    case Merging => Optimising
    case Optimising => Finished
    case _ => b
  }

  /** The accept loop is idle, or holds a connection and the flag it read. */
  datatype Loop = Idle | Holding(seen: bool)

  datatype State = State(count: int, flag: bool, loop: Loop, build: Build, spawns: nat,
                        handled: seq<Handler>, messages: seq<Message>, replies: seq<Reply>)

  const Start := State(0, false, Idle, NotStarted, 0, [], [], [])

  function Chosen(count: int, seen: bool): Handler {
    if seen then RunBolted else if count <= NUM_PERF_DATA then RunPerf else NotRunPerf
  }

  function Spawns(count: int, seen: bool): bool { !seen && count == NUM_PERF_DATA + 1 }

  datatype Action = Accept | Handle(message: Message) | BuildStep | BuildPanic

  const MAX_COUNT: int := 0x7FFF_FFFF

  /** One step of the server or of its background thread; None when the action
      is not possible. The counter is an i32, and runs stop before it overflows. */
  function Next(s: State, a: Action): Outcome {
    match a
    case Accept =>
      if s.loop.Idle? && s.count < MAX_COUNT then Stepped(s.(loop := Holding(s.flag), count := s.count + 1)) else Stuck
    case Handle(m) =>
      if !s.loop.Holding? then Stuck
      else
        var h := Chosen(s.count, s.loop.seen);
        var done := s.(loop := Idle, handled := s.handled + [h],
                       messages := s.messages + [m], replies := s.replies + [Answer(h, m)]);
        Stepped(if Spawns(s.count, s.loop.seen) then done.(spawns := s.spawns + 1, build := Waiting) else done)
    case BuildStep =>
      if NextStage(s.build) == s.build then Stuck
      else Stepped(s.(build := NextStage(s.build), flag := s.flag || NextStage(s.build).Finished?))
    case BuildPanic =>
      if NextStage(s.build) == s.build then Stuck else Stepped(s.(build := Panicked))
  }

  datatype Outcome = Stuck | Stepped(state: State)

  function Run(s: State, actions: seq<Action>): Outcome
    decreases |actions|
  {
    if actions == [] then Stepped(s)
    else
      var n := Next(s, actions[0]);
      if n.Stuck? then Stuck else Run(n.state, actions[1..])
  }

  /** Ten profiled runs, then at least one plain one, then plain ones until the
      optimised binary is there, and only that from then on. */
  ghost predicate Phased(handled: seq<Handler>) {
    && (forall i :: 0 <= i < |handled| ==> (handled[i].RunPerf? <==> i < NUM_PERF_DATA))
    && (|handled| > NUM_PERF_DATA ==> handled[NUM_PERF_DATA].NotRunPerf?)
    && (forall i, j :: 0 <= i <= j < |handled| && handled[i].RunBolted? ==> handled[j].RunBolted?)
  }

  /** Every connection got the answer of its handler to its message. */
  ghost predicate Answered(s: State) {
    && |s.messages| == |s.handled| == |s.replies|
    && forall i :: 0 <= i < |s.handled| ==> s.replies[i] == Answer(s.handled[i], s.messages[i])
  }

  ghost predicate Inv(s: State) {
    && s.count == |s.handled| + (if s.loop.Holding? then 1 else 0)
    && Answered(s)
    && s.spawns == (if |s.handled| > NUM_PERF_DATA then 1 else 0)
    && (s.spawns == 0 <==> s.build.NotStarted?)
    && (s.flag <==> s.build.Finished?)
    && (s.loop.Holding? && s.loop.seen ==> s.flag)
    && (forall i :: 0 <= i < |s.handled| && s.handled[i].RunBolted? ==> s.flag)
    && (s.loop.Holding? && !s.loop.seen ==> forall i :: 0 <= i < |s.handled| ==> !s.handled[i].RunBolted?)
    && Phased(s.handled)
  }

  lemma StepKeepsInv(s: State, a: Action)
    requires Inv(s) && Next(s, a).Stepped?
    ensures Inv(Next(s, a).state)
  {
    if a.Handle? {
      var s' := Next(s, a).state;
      var h := Chosen(s.count, s.loop.seen);
      assert s'.handled[..|s.handled|] == s.handled && s'.handled[|s.handled|] == h;
    }
  }

  lemma {:induction false} RunKeepsInv(s: State, actions: seq<Action>)
    requires Inv(s) && Run(s, actions).Stepped?
    ensures Inv(Run(s, actions).state)
    decreases |actions|
  {
    if actions != [] {
      StepKeepsInv(s, actions[0]);
      RunKeepsInv(Next(s, actions[0]).state, actions[1..]);
    }
  }

  /** Over every interleaving of connections and background build: the handlers
      come in phases, the build is started at most once and not before the
      eleventh connection, and the flag means that it has finished. */
  lemma EveryRun(actions: seq<Action>)
    requires Run(Start, actions).Stepped?
    ensures var s := Run(Start, actions).state;
      && Phased(s.handled) && Answered(s)
      && s.spawns <= 1 && (s.spawns == 1 <==> |s.handled| >= NUM_PERF_DATA + 1)
      && (s.flag ==> s.build.Finished? && s.count >= NUM_PERF_DATA + 1)
  {
    RunKeepsInv(Start, actions);
  }

  /** What the clients read, over every run: of the first ten, those that announce
      an invocation are told to profile and the others to run plainly; later ones
      are told to run plainly until the build has finished, and to run the
      optimised binary from then on. */
  lemma RepliesByPhase(actions: seq<Action>, i: nat)
    requires Run(Start, actions).Stepped? && i < |Run(Start, actions).state.messages|
    ensures var s := Run(Start, actions).state;
      && |s.messages| == |s.replies|
      && (s.messages[i].Unreadable? ==> s.replies[i] == NoReply)
      && (s.messages[i].Text? && i < 10 ==>
            s.replies[i] == if |s.messages[i].t| >= 16 && s.messages[i].t[..16] == "clang invocation" then StartPerf else RunWithoutPerf)
      && (s.messages[i].Text? && i >= 10 ==> s.replies[i] == RunWithoutPerf || (s.replies[i] == RunBoltedBinary && s.flag))
      && (s.messages[i].Text? && i == 10 ==> s.replies[i] == RunWithoutPerf)
      && (s.replies[i] == RunBoltedBinary ==>
            forall j :: i <= j < |s.messages| && s.messages[j].Text? ==> s.replies[j] == RunBoltedBinary)
  {
    RunKeepsInv(Start, actions);
    var s := Run(Start, actions).state;
    hide Run;
    assert s.replies[i] == Answer(s.handled[i], s.messages[i]);
    forall j | i <= j < |s.messages| && s.messages[j].Text? && s.replies[i] == RunBoltedBinary
      ensures s.replies[j] == RunBoltedBinary
    {
      assert s.handled[i].RunBolted? && s.handled[j].RunBolted?;
      assert s.replies[j] == Answer(s.handled[j], s.messages[j]);
    }
  }

  // Every phased sequence is some run's

  function Repeat(n: nat, h: Handler): (hs: seq<Handler>)
    ensures |hs| == n && forall i :: 0 <= i < n ==> hs[i] == h
  {
    if n == 0 then [] else Repeat(n - 1, h) + [h]
  }

  function Connections(n: nat): (actions: seq<Action>) {
    if n == 0 then [] else Connections(n - 1) + [Accept, Handle(Unreadable)]
  }

  lemma {:induction false} RunAppend(s: State, a: seq<Action>, b: seq<Action>)
    requires Run(s, a).Stepped?
    ensures Run(s, a + b) == Run(Run(s, a).state, b)
    decreases |a|
  {
    if a == [] {
      assert a + b == b;
    } else {
      RunAppend(Next(s, a[0]).state, a[1..], b);
      assert (a + b)[1..] == a[1..] + b;
    }
  }

  lemma TwoSteps(s: State, a: Action, b: Action)
    requires Next(s, a).Stepped?
    ensures Run(s, [a, b]) == Next(Next(s, a).state, b)
  {
    assert [a, b][1..] == [b] && [b][1..] == [];
    var t := Next(s, a).state;
    if Next(t, b).Stepped? {
      assert Run(Next(t, b).state, []) == Next(t, b);
    }
    assert Run(t, [b]) == Next(t, b);
  }

  /** `n` connections while the flag does not change. */
  lemma {:induction false} ConnectionsRun(s: State, n: nat)
    requires Inv(s) && s.loop.Idle? && s.count + n <= MAX_COUNT
    requires s.flag || s.count + n <= NUM_PERF_DATA || s.count > NUM_PERF_DATA || n == 0 || s.count == NUM_PERF_DATA
    ensures var r := Run(s, Connections(n));
      && r.Stepped? && Inv(r.state) && r.state.loop.Idle? && r.state.count == s.count + n && r.state.flag == s.flag
      && r.state.handled == s.handled + Repeat(n, if s.flag then RunBolted else if s.count < NUM_PERF_DATA then RunPerf else NotRunPerf)
      && (r.state.build == s.build || (s.count == NUM_PERF_DATA && n > 0 && r.state.build == Waiting))
    decreases n
  {
    if n > 0 {
      ConnectionsRun(s, n - 1);
      var mid := Run(s, Connections(n - 1)).state;
      RunAppend(s, Connections(n - 1), [Accept, Handle(Unreadable)]);
      TwoSteps(mid, Accept, Handle(Unreadable));
      StepKeepsInv(mid, Accept);
      StepKeepsInv(Next(mid, Accept).state, Handle(Unreadable));
    }
  }

  /** For every k >= 1 and m, some run handles ten connections with profiling,
      k without and m with the optimised binary. */
  lemma EveryPhasingRuns(k: nat, m: nat) returns (actions: seq<Action>)
    requires k >= 1 && NUM_PERF_DATA + k + m <= MAX_COUNT
    ensures Run(Start, actions).Stepped?
    ensures Run(Start, actions).state.handled == Repeat(10, RunPerf) + Repeat(k, NotRunPerf) + Repeat(m, RunBolted)
  {
    hide Connections, Inv;
    var first, second, third := Connections(10), Connections(k), Connections(m);
    var build := [BuildStep, BuildStep] + [BuildStep, BuildStep];
    ConnectionsRun(Start, 10);
    var s1 := Run(Start, first).state;
    assert s1.handled == Repeat(10, RunPerf);
    ConnectionsRun(s1, k);
    var s2 := Run(s1, second).state;
    TwoSteps(s2, BuildStep, BuildStep);
    var s3 := Run(s2, [BuildStep, BuildStep]).state;
    TwoSteps(s3, BuildStep, BuildStep);
    RunAppend(s2, [BuildStep, BuildStep], [BuildStep, BuildStep]);
    var s4 := Run(s2, build).state;
    RunKeepsInv(s2, build);
    ConnectionsRun(s4, m);
    RunAppend(s2, build, third);
    RunAppend(s1, second, build + third);
    RunAppend(Start, first, second + (build + third));
    actions := first + (second + (build + third));
  }

  // The server, in the code's own form

  /** A step of the background thread: it goes on, or it panics. */
  datatype Tick = Advance | Panic

  function ActionOf(t: Tick): Action { if t.Advance? then BuildStep else BuildPanic }

  /** What the listener yields: nothing usable, or a connection, with the steps
      the background thread makes before it is accepted and before its handler
      returns. */
  datatype Incoming = Broken | Connected(message: Message, before: seq<Tick>, during: seq<Tick>)

  function Messages(incoming: seq<Incoming>): seq<Message> {
    if incoming == [] then []
    else
      var init, last := Messages(incoming[..|incoming| - 1]), incoming[|incoming| - 1];
      if last.Connected? then init + [last.message] else init
  }

  /** Where the background thread comes to: nowhere when it does not run. */
  function AfterTicks(b: Build, ticks: seq<Tick>): (c: Build)
    ensures b in {NotStarted, Finished, Panicked} ==> c == b
  {
    if ticks == [] then b
    else
      var c, t := AfterTicks(b, ticks[..|ticks| - 1]), ticks[|ticks| - 1];
      if c in {NotStarted, Finished, Panicked} then c else if t == Panic then Panicked else NextStage(c)
  }

  lemma RunMore(s: State, actions: seq<Action>, a: Action)
    requires Run(s, actions).Stepped?
    ensures Run(s, actions + [a]) == Next(Run(s, actions).state, a)
  {
    RunAppend(s, actions, [a]);
    assert [a][1..] == [];
  }

  lemma StartIsFine()
    ensures Inv(Start)
  {
  }

  lemma AcceptIs(s: State)
    requires s.loop.Idle? && s.count < MAX_COUNT
    ensures Next(s, Accept) == Stepped(s.(loop := Holding(s.flag), count := s.count + 1))
  {
  }

  /** What the handling of a connection comes to: accepted in state `s`, and
      handled in state `t` after some steps of the background thread. */
  lemma HandleIs(s: State, t: State, m: Message)
    requires Inv(s) && s.loop.Idle? && Inv(t) && t.loop == Holding(s.flag) && t.count == s.count + 1
    requires t.handled == s.handled && (s.build in {NotStarted, Finished, Panicked} ==> t.build == s.build)
    ensures Next(t, Handle(m)).Stepped?
    ensures var u, h := Next(t, Handle(m)).state, Chosen(t.count, s.flag);
      && Inv(u) && u.loop.Idle? && u.count == t.count == |u.handled| && u.flag == t.flag
      && u.handled == t.handled + [h] && u.messages == t.messages + [m] && u.replies == t.replies + [Answer(h, m)]
      && (h.RunBolted? <==> s.build == Finished) && (h.RunPerf? <==> |s.handled| < NUM_PERF_DATA)
      && (Spawns(t.count, s.flag) <==> |u.handled| == NUM_PERF_DATA + 1)
      && (Spawns(t.count, s.flag) ==> s.build == NotStarted)
      && u.build == if Spawns(t.count, s.flag) then Waiting else t.build
  {
    StepKeepsInv(t, Handle(m));
  }

  lemma InvSays(s: State)
    requires Inv(s)
    ensures Answered(s) && Phased(s.handled)
  {
  }

  /** The connection counter, the flag behind the mutex and the background
      thread; `trail` and `now` are the steps made so far and where they lead. */
  class Server {
    var count: int
    var flag: bool
    var build: Build
    ghost var trail: seq<Action>
    ghost var now: State

    /** The fields are those of a state that the steps reach. */
    ghost predicate Tracks()
      reads this
    {
      && Run(Start, trail) == Stepped(now)
      && count == now.count && flag == now.flag && build == now.build
    }

    ghost predicate Valid()
      reads this
    {
      Tracks() && now.loop.Idle?
    }

    constructor ()
      ensures Valid() && now == Start
    {
      count, flag, build := 0, false, NotStarted;
      trail, now := [], Start;
    }

    /** The steps of the background thread, as far as it is alive to make them. */
    method Background(ticks: seq<Tick>)
      requires Tracks()
      modifies this
      ensures Tracks() && count == old(count) && now.loop == old(now.loop) && now.spawns == old(now.spawns)
      ensures now.handled == old(now.handled) && now.messages == old(now.messages) && now.replies == old(now.replies)
      ensures build == AfterTicks(old(build), ticks)
      ensures flag <==> old(flag) || (old(build) != Finished && build == Finished)
    {
      ghost var first := build;
      var i := 0;
      assert ticks[..0] == [];
      while i < |ticks|
        invariant 0 <= i <= |ticks|
        invariant Tracks() && count == old(count) && now.loop == old(now.loop) && now.spawns == old(now.spawns)
        invariant now.handled == old(now.handled) && now.messages == old(now.messages) && now.replies == old(now.replies)
        invariant build == AfterTicks(first, ticks[..i])
        invariant flag <==> old(flag) || (first != Finished && build == Finished)
      {
        assert ticks[..i + 1][..i] == ticks[..i];
        if build in {Waiting, Converting, Merging, Optimising} {
          RunMore(Start, trail, ActionOf(ticks[i]));
          now := Next(now, ActionOf(ticks[i])).state;
          trail := trail + [ActionOf(ticks[i])];
          if ticks[i] == Panic {
            build := Panicked;
          } else {
            build := NextStage(build);
            if build == Finished {
              flag := true;
            }
          }
        }
        i := i + 1;
      }
      assert ticks[..i] == ticks;
    }

    /** One accepted connection. The server stays on some run of its state
        machine; the handler is the optimised one exactly when the build had
        finished by then, and the profiling one for the first ten; the build is
        started with the eleventh connection. */
    method Connection(message: Message, during: seq<Tick>) returns (handler: Handler, reply: Reply, spawn: bool)
      requires Valid() && count < MAX_COUNT
      modifies this
      ensures Valid() && count == old(count) + 1 == |now.handled|
      ensures now.handled == old(now.handled) + [handler] && now.messages == old(now.messages) + [message]
      ensures now.replies == old(now.replies) + [reply] && Answered(now) && Phased(now.handled)
      ensures handler.RunBolted? <==> old(build) == Finished
      ensures handler.RunPerf? <==> |old(now.handled)| < NUM_PERF_DATA
      ensures spawn <==> |now.handled| == NUM_PERF_DATA + 1
      ensures spawn ==> old(build) == NotStarted && build == Waiting
    {
      hide Phased, Run, Next, Inv, Answered, Answer;
      StartIsFine();
      RunKeepsInv(Start, trail);
      AcceptIs(now);
      ghost var before := now;
      var boltBinaryGenerated := flag;
      count := count + 1;
      RunMore(Start, trail, Accept);
      trail, now := trail + [Accept], Next(now, Accept).state;
      Background(during);
      RunKeepsInv(Start, trail);
      HandleIs(before, now, message);
      spawn := false;
      if boltBinaryGenerated {
        handler := RunBolted;
      } else {
        if count <= NUM_PERF_DATA {
          handler := RunPerf;
        } else {
          handler := NotRunPerf;
        }
        if count == NUM_PERF_DATA + 1 {
          spawn := true;
          build := Waiting;
        }
      }
      reply := Answer(handler, message);
      RunMore(Start, trail, Handle(message));
      trail, now := trail + [Handle(message)], Next(now, Handle(message)).state;
      InvSays(now);
    }

    /** The accept loop: a broken connection is skipped, every other one is
        handled in turn. */
    method Serve(incoming: seq<Incoming>)
      requires Valid() && count + |incoming| <= MAX_COUNT
      modifies this
      ensures Valid() && now.messages == old(now.messages) + Messages(incoming)
      ensures Answered(now) && Phased(now.handled)
    {
      var i := 0;
      assert incoming[..0] == [];
      RunKeepsInv(Start, trail);
      while i < |incoming|
        invariant 0 <= i <= |incoming| && Valid() && count + |incoming| - i <= MAX_COUNT
        invariant now.messages == old(now.messages) + Messages(incoming[..i])
        invariant Answered(now) && Phased(now.handled)
      {
        assert incoming[..i + 1][..i] == incoming[..i];
        match incoming[i] {
          case Broken =>
          case Connected(message, before, during) =>
            Background(before);
            var handler, reply, spawn := Connection(message, during);
        }
        i := i + 1;
      }
      assert incoming[..i] == incoming;
    }
  }

  // Converting the profiles

  datatype Event = Spawn(n: nat, input: string, output: string) | Wait(n: nat)

  /** The children started, in order. */
  function Started(log: seq<Event>): seq<nat> {
    if log == [] then []
    else Started(log[..|log| - 1]) + (if log[|log| - 1].Spawn? then [log[|log| - 1].n] else [])
  }

  function Waited(log: seq<Event>): seq<nat> {
    if log == [] then []
    else Waited(log[..|log| - 1]) + (if log[|log| - 1].Wait? then [log[|log| - 1].n] else [])
  }

  function UpTo(n: nat): (s: seq<nat>)
    ensures |s| == n && forall i :: 0 <= i < n ==> s[i] == i
  {
    if n == 0 then [] else UpTo(n - 1) + [n - 1]
  }

  /** At every moment: children are started in order and waited for in order,
      each after its start, and at most four are unwaited. */
  ghost predicate Batched(log: seq<Event>) {
    forall k :: 0 <= k <= |log| ==> Moment(log[..k])
  }

  ghost predicate Moment(log: seq<Event>) {
    var s, w := Started(log), Waited(log);
    s == UpTo(|s|) && w == UpTo(|w|) && |w| <= |s| <= |w| + NUM_PERF2BOLT_IN_PARALLEL
  }

  lemma MomentIs(log: seq<Event>, s: nat, w: nat)
    requires Started(log) == UpTo(s) && Waited(log) == UpTo(w) && w <= s <= w + NUM_PERF2BOLT_IN_PARALLEL
    ensures Moment(log)
  {
  }

  lemma BatchedMore(log: seq<Event>, e: Event)
    requires Batched(log) && Moment(log + [e])
    ensures Batched(log + [e])
  {
    forall k | 0 <= k <= |log| + 1
      ensures Moment((log + [e])[..k])
    {
      if k <= |log| {
        assert (log + [e])[..k] == log[..k];
      } else {
        assert (log + [e])[..k] == log + [e];
      }
    }
  }

  /** Children are waited for in rounds: when four are running, or at the end when
      all of the `n` have been started, and then all of them. */
  ghost predicate Rounds(log: seq<Event>, n: nat) {
    && (forall k :: 0 < k < |log| && log[k - 1].Spawn? && log[k].Wait? ==>
          |Started(log[..k])| == |Waited(log[..k])| + 4 || |Started(log[..k])| == n)
    && (forall k :: 0 < k < |log| && log[k - 1].Wait? && log[k].Spawn? ==> |Started(log[..k])| == |Waited(log[..k])|)
  }

  /** The last event lets a child be started, or be waited for, next. */
  predicate Follows(log: seq<Event>, e: Event, s: nat, w: nat, n: nat) {
    log != [] ==>
      && (log[|log| - 1].Spawn? && e.Wait? ==> s == w + 4 || s == n)
      && (log[|log| - 1].Wait? && e.Spawn? ==> s == w)
  }

  lemma RoundsMore(log: seq<Event>, e: Event, s: nat, w: nat, n: nat)
    requires Rounds(log, n) && Started(log) == UpTo(s) && Waited(log) == UpTo(w) && Follows(log, e, s, w, n)
    ensures Rounds(log + [e], n)
  {
    hide Started, Waited;
    var log' := log + [e];
    assert log'[..|log|] == log;
    assert forall k :: 0 <= k < |log| ==> log'[..k] == log[..k];
  }

  lemma EmptyLog()
    ensures forall n :: Rounds([], n)
    ensures Batched([]) && Started([]) == UpTo(0) && Waited([]) == UpTo(0)
  {
  }

  lemma LogMore(log: seq<Event>, e: Event)
    ensures Started(log + [e]) == Started(log) + if e.Spawn? then [e.n] else []
    ensures Waited(log + [e]) == Waited(log) + if e.Wait? then [e.n] else []
  {
    assert (log + [e])[..|log|] == log;
  }

  lemma BatchesOfFour(log: seq<Event>, n: nat)
    requires Batched(log) && Rounds(log, n)
    ensures forall k :: 0 < k < |log| && log[k - 1].Spawn? && log[k].Wait? ==>
      |Started(log[..k])| == |Waited(log[..k])| + 4 || |Started(log[..k])| == n
    ensures forall k :: 0 < k < |log| && log[k - 1].Wait? && log[k].Spawn? ==> |Started(log[..k])| == |Waited(log[..k])|
    ensures forall k :: 0 <= k <= |log| ==> |Waited(log[..k])| <= |Started(log[..k])| <= |Waited(log[..k])| + 4
  {
    forall k | 0 <= k <= |log|
      ensures |Waited(log[..k])| <= |Started(log[..k])| <= |Waited(log[..k])| + 4
    {
      assert Moment(log[..k]);
    }
  }

  /** The conversion of every path was started, on the right files. */
  ghost predicate Converted(log: seq<Event>, paths: seq<string>, n: nat) {
    forall i :: 0 <= i < n && i < |paths| && |paths[i]| >= 4 ==> Spawn(i, paths[i], paths[i][..|paths[i]| - 4] + "fdata") in log
  }

  /** Wait for the children from `from` on, in order. */
  method WaitFor(children: seq<nat>, ghost s: nat, ghost w: nat, ghost n: nat, log0: seq<Event>) returns (log: seq<Event>)
    requires Batched(log0) && Started(log0) == UpTo(s) && Waited(log0) == UpTo(w)
    requires s == w + |children| && |children| <= NUM_PERF2BOLT_IN_PARALLEL
    requires forall i :: 0 <= i < |children| ==> children[i] == w + i
    requires Rounds(log0, n) && (|children| == 4 || s == n)
    ensures Rounds(log, n) && (log == log0 || (log != [] && log[|log| - 1].Wait?))
    ensures Batched(log) && Started(log) == UpTo(s) && Waited(log) == UpTo(s)
    ensures log0 <= log
  {
    hide Batched, Started, Waited, Rounds;
    log := log0;
    var i := 0;
    while i < |children|
      invariant 0 <= i <= |children| && Rounds(log, n)
      invariant if i == 0 then log == log0 else log != [] && log[|log| - 1].Wait?
      invariant Batched(log) && Started(log) == UpTo(s) && Waited(log) == UpTo(w + i)
      invariant log0 <= log
    {
      LogMore(log, Wait(children[i]));
      MomentIs(log + [Wait(children[i])], s, w + i + 1);
      BatchedMore(log, Wait(children[i]));
      RoundsMore(log, Wait(children[i]), s, w + i, n);
      log := log + [Wait(children[i])];
      i := i + 1;
    }
  }

  /** Start the conversion of one path. */
  method StartChild(paths: seq<string>, i: nat, ghost w: nat, ghost n: nat, log0: seq<Event>) returns (log: seq<Event>)
    requires i < |paths| && |paths[i]| >= 4
    requires Batched(log0) && Started(log0) == UpTo(i) && Waited(log0) == UpTo(w)
    requires w <= i < w + NUM_PERF2BOLT_IN_PARALLEL && Converted(log0, paths, i)
    requires Rounds(log0, n) && (log0 != [] && log0[|log0| - 1].Wait? ==> i == w)
    ensures Rounds(log, n) && log != [] && log[|log| - 1].Spawn?
    ensures Batched(log) && Started(log) == UpTo(i + 1) && Waited(log) == UpTo(w)
    ensures Converted(log, paths, i + 1)
  {
    var path1 := paths[i];
    var path2 := path1[..|path1| - 4] + "fdata";
    var e := Spawn(i, path1, path2);
    LogMore(log0, e);
    BatchedMore(log0, e);
    RoundsMore(log0, e, i, w, n);
    log := log0 + [e];
  }

  /** generate_perf_fdata: batches of at most four children. A path shorter than
      its suffix panics. On return every child was waited for exactly once. */
  method GeneratePerfFdata(paths: seq<string>) returns (ok: bool, log: seq<Event>)
    ensures ok <==> forall i :: 0 <= i < |paths| ==> |paths[i]| >= 4
    ensures Batched(log) && Rounds(log, |paths|)
    ensures forall k :: 0 <= k <= |log| ==> |Waited(log[..k])| <= |Started(log[..k])| <= |Waited(log[..k])| + 4
    ensures forall k :: 0 < k < |log| && log[k - 1].Spawn? && log[k].Wait? ==>
      |Started(log[..k])| == |Waited(log[..k])| + 4 || |Started(log[..k])| == |paths|
    ensures forall k :: 0 < k < |log| && log[k - 1].Wait? && log[k].Spawn? ==> |Started(log[..k])| == |Waited(log[..k])|
    ensures ok ==> Started(log) == UpTo(|paths|) && Waited(log) == UpTo(|paths|)
    ensures ok ==> forall i :: 0 <= i < |paths| ==> Spawn(i, paths[i], paths[i][..|paths[i]| - 4] + "fdata") in log
  {
    hide Batched, Started, Waited, Rounds;
    log := [];
    EmptyLog();
    var children: seq<nat> := [];
    var i := 0;
    while i < |paths|
      invariant 0 <= i <= |paths| && |children| < NUM_PERF2BOLT_IN_PARALLEL && |children| <= i
      invariant forall k :: 0 <= k < i ==> |paths[k]| >= 4
      invariant forall k :: 0 <= k < |children| ==> children[k] == i - |children| + k
      invariant Batched(log) && Started(log) == UpTo(i) && Waited(log) == UpTo(i - |children|)
      invariant Converted(log, paths, i)
      invariant Rounds(log, |paths|) && (log != [] && log[|log| - 1].Wait? ==> children == [])
    {
      if |paths[i]| < 4 {
        BatchesOfFour(log, |paths|);
        return false, log;
      }
      log := StartChild(paths, i, i - |children|, |paths|, log);
      children := children + [i];
      i := i + 1;
      if |children| == NUM_PERF2BOLT_IN_PARALLEL {
        log := WaitFor(children, i, i - |children|, |paths|, log);
        children := [];
      }
    }
    log := WaitFor(children, i, i - |children|, |paths|, log);
    BatchesOfFour(log, |paths|);
    return true, log;
  }
}
