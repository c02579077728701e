/** Which fibers start, and why: the start of the workflow begins one root fiber, and a signal runs every block that was
    registered for signals before it, once each, in the order of registration. Nothing else starts either. */
module FiberStarts {
  import opened Base
  import opened Decisions
  import opened Events
  import opened Histories
  import opened StateManagers
  import opened Engine
  import opened Windows
  import opened Runs

  // ----- Reading the log -----

  /** A block that ran in a fiber of its own, and with what. */
  datatype Ring = Ring(block: nat, payload: Payload)

  /** The inputs with which root fibers began. */
  function Begans(log: seq<LogEntry>): seq<Value> {
    if log == [] then []
    else
      var last := log[|log| - 1];
      Begans(log[..|log| - 1]) + if last.Began? then [last.input] else []
  }

  /** The fibers that started. */
  function Starters(log: seq<LogEntry>): seq<nat> {
    if log == [] then []
    else
      var last := log[|log| - 1];
      Starters(log[..|log| - 1]) + if last.Answered? then [] else [last.fiber]
  }

  /** The blocks registered for signals. */
  function SignalBlocks(log: seq<LogEntry>): seq<nat> {
    if log == [] then []
    else
      var last := log[|log| - 1];
      SignalBlocks(log[..|log| - 1])
      + if last.Answered? && last.request.OnSignal? && last.answer.Registered? then [last.answer.block] else []
  }

  /** The entry registers a block for the end of this future. */
  predicate RegistersFor(e: LogEntry, f: nat) {
    e.Answered? && e.request == OnDone(f) && e.answer.Registered?
  }

  /** The blocks registered for the end of a future. */
  function DoneBlocks(log: seq<LogEntry>, f: nat): seq<nat> {
    if log == [] then []
    else
      var last := log[|log| - 1];
      DoneBlocks(log[..|log| - 1], f) + if RegistersFor(last, f) then [last.answer.block] else []
  }

  /** All runs of blocks. */
  function Spawns(log: seq<LogEntry>): seq<Ring> {
    if log == [] then []
    else
      var last := log[|log| - 1];
      Spawns(log[..|log| - 1]) + if last.Spawned? then [Ring(last.block, last.payload)] else []
  }

  /** The runs of these blocks. */
  function RingsOf(log: seq<LogEntry>, blocks: seq<nat>): seq<Ring> {
    if log == [] then []
    else
      var last := log[|log| - 1];
      RingsOf(log[..|log| - 1], blocks)
      + if last.Spawned? && last.block in blocks then [Ring(last.block, last.payload)] else []
  }

  /** The runs of the blocks registered for signals. */
  function Rings(log: seq<LogEntry>): seq<Ring> {
    RingsOf(log, SignalBlocks(log))
  }

  /** Every one of these blocks, run with this. */
  function EachWith(blocks: seq<nat>, p: Payload): seq<Ring> {
    seq(|blocks|, i requires 0 <= i < |blocks| => Ring(blocks[i], p))
  }

  lemma LogSnoc(log: seq<LogEntry>, e: LogEntry, blocks: seq<nat>)
    ensures Begans(log + [e]) == Begans(log) + (if e.Began? then [e.input] else [])
    ensures Starters(log + [e]) == Starters(log) + (if e.Answered? then [] else [e.fiber])
    ensures
      SignalBlocks(log + [e])
      == SignalBlocks(log)
         + (if e.Answered? && e.request.OnSignal? && e.answer.Registered? then [e.answer.block] else [])
    ensures
      RingsOf(log + [e], blocks)
      == RingsOf(log, blocks) + (if e.Spawned? && e.block in blocks then [Ring(e.block, e.payload)] else [])
  {
    assert (log + [e])[..|log|] == log;
  }

  lemma DoneSnoc(log: seq<LogEntry>, e: LogEntry)
    ensures
      forall f: nat ::
        DoneBlocks(log + [e], f) == DoneBlocks(log, f) + if RegistersFor(e, f) then [e.answer.block] else []
    ensures Spawns(log + [e]) == Spawns(log) + if e.Spawned? then [Ring(e.block, e.payload)] else []
  {
    assert (log + [e])[..|log|] == log;
  }

  /** A block that never ran adds nothing. */
  lemma {:induction false} RingsMore(log: seq<LogEntry>, blocks: seq<nat>, b: nat)
    requires forall i :: 0 <= i < |log| && log[i].Spawned? ==> log[i].block != b
    ensures RingsOf(log, blocks + [b]) == RingsOf(log, blocks)
  {
    if log != [] {
      RingsMore(log[..|log| - 1], blocks, b);
    }
  }

  // ----- How handlers are wired -----

  /** The handlers of the workflow itself: its start, then each block registered for signals. */
  function WorkflowList(blocks: seq<nat>): seq<Registration> {
    [Registration(OnStarted, Begin)]
    + seq(|blocks|, i requires 0 <= i < |blocks| => Registration(OnSignaled, SignalBlock(blocks[i])))
  }

  predicate StartsFiber(h: Handler) { h.Begin? || h.SignalBlock? }

  ghost predicate HandlersWired(m: Machine) {
    && HandlersAt(m.handlers, WORKFLOW_TARGET) == WorkflowList(SignalBlocks(m.log))
    && (forall t, i :: t in m.handlers && t != WORKFLOW_TARGET && 0 <= i < |m.handlers[t]| ==>
          !StartsFiber(m.handlers[t][i].handler))
    && (forall f :: 0 <= f < |m.futures| ==> m.futures[f].target != WORKFLOW_TARGET)
  }

  ghost predicate ForCallbacks(m: Machine, blocks: seq<nat>) {
    forall b :: b in blocks ==> b < m.blocks && b !in SignalBlocks(m.log)
  }

  /** Blocks are numbered as they are registered, and those of futures are not those of signals. */
  ghost predicate BlocksWired(m: Machine) {
    && (forall b :: b in SignalBlocks(m.log) ==> b < m.blocks)
    && (forall f :: 0 <= f < |m.futures| ==> ForCallbacks(m, m.futures[f].callbacks))
    && (forall i :: 0 <= i < |m.log| && m.log[i].Spawned? ==> m.log[i].block < m.blocks)
  }

  /** The callbacks of a future are the blocks that the code registered for it. */
  ghost predicate CallbacksWired(m: Machine) {
    forall f: nat :: DoneBlocks(m.log, f) == if f < |m.futures| then m.futures[f].callbacks else []
  }

  /** Fibers are numbered as they start. */
  ghost predicate FibersWired(m: Machine) {
    |Starters(m.log)| == |m.fibers| && forall k :: 0 <= k < |m.fibers| ==> Starters(m.log)[k] == k
  }

  ghost predicate Wired(m: Machine) {
    HandlersWired(m) && BlocksWired(m) && FibersWired(m) && CallbacksWired(m)
  }

  lemma FreshWired()
    ensures Wired(FRESH_MACHINE)
  {
  }

  /** What code does without starting a fiber. */
  ghost predicate Quiet(m: Machine, m': Machine) {
    && Wired(m')
    && Begans(m'.log) == Begans(m.log)
    && Rings(m'.log) == Rings(m.log)
    && NewBlocks(m, m')
  }

  /** Blocks registered later have later numbers. */
  ghost predicate NewBlocks(m: Machine, m': Machine) {
    && m.blocks <= m'.blocks
    && (forall b :: b in SignalBlocks(m.log) ==> b in SignalBlocks(m'.log))
    && (forall b :: b in SignalBlocks(m'.log) && b < m.blocks ==> b in SignalBlocks(m.log))
  }

  // ----- Requests -----

  lemma RegisterElsewhere(m: Machine, m': Machine, t: Target, r: Registration)
    requires HandlersWired(m) && t != WORKFLOW_TARGET && !StartsFiber(r.handler)
    requires m'.handlers == Register(m.handlers, t, r)
    requires SignalBlocks(m'.log) == SignalBlocks(m.log) && m'.futures == m.futures
    ensures HandlersWired(m')
  {
  }

  /** What is left of the wiring when a request touches neither signals nor blocks. */
  ghost predicate KeepsWiring(m: Machine, m': Machine) {
    && m'.blocks == m.blocks && m'.fibers == m.fibers && m'.log == m.log
    && (HandlersWired(m) ==> HandlersWired(m'))
    && |m'.futures| >= |m.futures|
    && (forall f :: 0 <= f < |m.futures| ==> m'.futures[f].callbacks == m.futures[f].callbacks)
    && (forall f :: |m.futures| <= f < |m'.futures| ==> m'.futures[f].callbacks == [])
  }

  lemma TrackedKeeps(m: Machine, t: Tracked)
    requires t.decision.ScheduleActivity? || t.decision.StartChildWorkflow? || t.decision.StartTimer?
    ensures KeepsWiring(m, StartTracked(m, t.decision, t.settled, t.broken).machine)
  {
    hide NextFreeId, OnlyRequests, Keeps, AllAnswerable, SignalBlocks, WorkflowList;
  }

  lemma OthersKeep(env: Env, m: Machine, r: Request)
    requires !StartsTracked(r) && !r.OnSignal? && !r.OnDone?
    ensures KeepsWiring(m, Perform(env, m, r).machine)
  {
    hide ScheduleDecision, SignalBlocks, WorkflowList;
  }

  /** A new entry that is an answer but registers no signal block, over unchanged wiring. */
  lemma AnsweredQuiet(m: Machine, a: Machine, e: LogEntry)
    requires Wired(m) && KeepsWiring(m, a) && e.Answered?
    requires e.request.OnSignal? || e.request.OnDone? ==> !e.answer.Registered?
    ensures Quiet(m, Logged(a, e))
  {
    hide WorkflowList;
    var m' := Logged(a, e);
    LogSnoc(m.log, e, SignalBlocks(m.log));
    DoneSnoc(m.log, e);
    assert SignalBlocks(m'.log) == SignalBlocks(m.log) && m'.log == m.log + [e];
    assert forall i :: 0 <= i < |m.log| ==> m'.log[i] == m.log[i];
  }

  lemma DoneQuiet(m: Machine, f: nat, fiber: nat)
    requires Wired(m) && f < |m.futures|
    ensures
      var reply := AddCallback(m, f);
      Quiet(m, Logged(reply.machine, Answered(fiber, OnDone(f), reply.answer)))
  {
    var reply := AddCallback(m, f);
    var e := Answered(fiber, OnDone(f), reply.answer);
    if !m.futures[f].status.Pending? {
      hide Wired, Quiet;
      SameKeeps(m);
      AnsweredQuiet(m, m, e);
    } else {
      LogSnoc(m.log, e, SignalBlocks(m.log));
      DoneSnoc(m.log, e);
      hide SignalBlocks, Begans, RingsOf, DoneBlocks, Starters, WorkflowList;
      var m' := Logged(reply.machine, e);
      assert m'.log == m.log + [e] && SignalBlocks(m'.log) == SignalBlocks(m.log);
      DoneBlocksWired(m, m', f, e);
      DoneCallbacksWired(m, m', f);
      hide BlocksWired, CallbacksWired;
    }
  }

  lemma DoneBlocksWired(m: Machine, m': Machine, f: nat, e: LogEntry)
    requires BlocksWired(m) && f < |m.futures| && e.Answered? && m'.log == m.log + [e]
    requires SignalBlocks(m'.log) == SignalBlocks(m.log) && m'.blocks == m.blocks + 1
    requires m'.futures == m.futures[f := m.futures[f].(callbacks := m.futures[f].callbacks + [m.blocks])]
    ensures BlocksWired(m')
  {
    hide SignalBlocks;
    assert forall i :: 0 <= i < |m.log| ==> m'.log[i] == m.log[i];
  }

  lemma DoneCallbacksWired(m: Machine, m': Machine, f: nat)
    requires CallbacksWired(m) && f < |m.futures|
    requires
      forall g: nat ::
        DoneBlocks(m'.log, g) == DoneBlocks(m.log, g) + if g == f then [m.blocks] else []
    requires m'.futures == m.futures[f := m.futures[f].(callbacks := m.futures[f].callbacks + [m.blocks])]
    ensures CallbacksWired(m')
  {
    hide DoneBlocks;
    forall g: nat
      ensures DoneBlocks(m'.log, g) == if g < |m'.futures| then m'.futures[g].callbacks else []
    {
      NothingMore(DoneBlocks(m.log, g));
    }
  }

  lemma ListenQuiet(m: Machine, fiber: nat)
    requires Wired(m)
    ensures
      var reply := Listen(m);
      Quiet(m, Logged(reply.machine, Answered(fiber, OnSignal, reply.answer)))
  {
    var reply := Listen(m);
    var e := Answered(fiber, OnSignal, reply.answer);
    var blocks := SignalBlocks(m.log);
    LogSnoc(m.log, e, blocks);
    LogSnoc(m.log, e, blocks + [m.blocks]);
    DoneSnoc(m.log, e);
    RingsMore(m.log, blocks, m.blocks);
    OneMoreBlock(blocks, m.blocks);
    hide WorkflowList, SignalBlocks, RingsOf;
    var m' := Logged(reply.machine, e);
    assert m'.log == m.log + [e] && SignalBlocks(m'.log) == blocks + [m.blocks];
    assert forall i :: 0 <= i < |m.log| ==> m'.log[i] == m.log[i];
  }

  lemma OneMoreBlock(blocks: seq<nat>, b: nat)
    ensures WorkflowList(blocks + [b]) == WorkflowList(blocks) + [Registration(OnSignaled, SignalBlock(b))]
  {
  }

  lemma PerformQuiet(env: Env, m: Machine, fiber: nat, r: Request)
    requires Wired(m)
    ensures
      var reply := Perform(env, m, r);
      Quiet(m, Logged(reply.machine, Answered(fiber, r, reply.answer)))
  {
    hide Wired, Quiet, KeepsWiring, ScheduleDecision;
    var reply := Perform(env, m, r);
    if StartsTracked(r) {
      TrackedKeeps(m, TrackedFor(r));
      AnsweredQuiet(m, reply.machine, Answered(fiber, r, reply.answer));
    } else if r.OnSignal? {
      ListenQuiet(m, fiber);
    } else if r.OnDone? && r.future < |m.futures| {
      DoneQuiet(m, r.future, fiber);
    } else {
      if r.OnDone? {
        SameKeeps(m);
      } else {
        OthersKeep(env, m, r);
      }
      AnsweredQuiet(m, reply.machine, Answered(fiber, r, reply.answer));
    }
  }

  lemma SameKeeps(m: Machine)
    ensures KeepsWiring(m, m)
  {
  }

  // ----- Fibers -----

  lemma QuietTransitive(a: Machine, b: Machine, c: Machine)
    requires Quiet(a, b) && Quiet(b, c)
    ensures Quiet(a, c)
  {
    hide Wired, Rings, Begans, SignalBlocks;
  }

  lemma QuietReflexive(m: Machine)
    requires Wired(m)
    ensures Quiet(m, m)
  {
  }

  lemma ParkQuiet(m: Machine, fiber: nat, root: bool, f: nat)
    requires Wired(m) && f < |m.futures|
    ensures Quiet(m, Park(m, fiber, root, f))
  {
    hide WorkflowList, SignalBlocks, RingsOf, Begans, Starters, DoneBlocks;
  }

  /** Only the state manager differs. */
  lemma ManagerQuiet(m: Machine, m': Machine)
    requires Wired(m) && m' == m.(manager := m'.manager)
    ensures Quiet(m, m')
  {
    hide WorkflowList, SignalBlocks, RingsOf, Begans, Starters, DoneBlocks;
  }

  lemma FinishQuiet(m: Machine, root: bool, r: Request)
    requires Wired(m) && (r.Return? || r.Raise?) && Finish(m, root, r).Ok?
    ensures Quiet(m, Finish(m, root, r).value)
  {
    hide Quiet, Wired, ScheduleDecision;
    ManagerQuiet(m, Finish(m, root, r).value);
  }

  lemma {:induction false} RunQuiet(env: Env, m: Machine, fiber: nat, root: bool, steps: nat)
    requires Wired(m) && Run(env, m, fiber, root, steps).Ok?
    ensures Quiet(m, Run(env, m, fiber, root, steps).value)
    decreases steps
  {
    hide *;
    RunUnfolds(env, m, fiber, root, steps);
    CanRun(env, m, fiber, root, steps);
    var r := env.code(fiber, m.log);
    if r.Return? || r.Raise? {
      FinishQuiet(m, root, r);
    } else if MustPark(m, r) {
      MayPark(m, r);
      ParkQuiet(m, fiber, root, r.future);
    } else {
      var reply := Perform(env, m, r);
      var next := Logged(reply.machine, Answered(fiber, r, reply.answer));
      PerformQuiet(env, m, fiber, r);
      QuietWired(m, next);
      RunQuiet(env, next, fiber, root, steps - 1);
      QuietTransitive(m, next, Run(env, next, fiber, root, steps - 1).value);
    }
  }

  lemma CanRun(env: Env, m: Machine, fiber: nat, root: bool, steps: nat)
    requires Run(env, m, fiber, root, steps).Ok?
    ensures steps > 0
  {
  }

  lemma MayPark(m: Machine, r: Request)
    requires MustPark(m, r)
    ensures r.Wait? && r.future < |m.futures|
  {
  }

  lemma QuietWired(m: Machine, m': Machine)
    requires Quiet(m, m')
    ensures Wired(m')
  {
  }

  /** A fiber starts: its first entry is the only one of its kind that it adds. */
  ghost predicate Begins(m: Machine, m': Machine, e: LogEntry) {
    && Wired(m') && NewBlocks(m, m')
    && Begans(m'.log) == Begans(m.log) + (if e.Began? then [e.input] else [])
    && Rings(m'.log)
       == Rings(m.log)
          + (if e.Spawned? && e.block in SignalBlocks(m.log) then [Ring(e.block, e.payload)] else [])
  }

  lemma StartedBegins(m: Machine, e: LogEntry)
    requires Wired(m) && !e.Answered? && e.fiber == |m.fibers| && (e.Spawned? ==> e.block < m.blocks)
    ensures Begins(m, Logged(m.(fibers := m.fibers + [NotParked]), e), e)
  {
    hide WorkflowList;
    var m' := Logged(m.(fibers := m.fibers + [NotParked]), e);
    LogSnoc(m.log, e, SignalBlocks(m.log));
    DoneSnoc(m.log, e);
    assert SignalBlocks(m'.log) == SignalBlocks(m.log) && m'.log == m.log + [e];
    assert forall i :: 0 <= i < |m.log| ==> m'.log[i] == m.log[i];
  }

  lemma BeginsThenQuiet(m: Machine, a: Machine, m': Machine, e: LogEntry)
    requires Begins(m, a, e) && Quiet(a, m')
    ensures Begins(m, m', e)
  {
    hide Wired, Rings, Begans, SignalBlocks;
  }

  lemma LaunchBegins(env: Env, m: Machine, root: bool, e: LogEntry)
    requires Wired(m) && Launch(env, m, root, e).Ok?
    requires !e.Answered? && e.fiber == |m.fibers| && (e.Spawned? ==> e.block < m.blocks)
    ensures Begins(m, Launch(env, m, root, e).value, e)
  {
    hide Run, Wired, Quiet;
    StartedBegins(m, e);
    var a := Logged(m.(fibers := m.fibers + [NotParked]), e);
    RunQuiet(env, a, |m.fibers|, root, env.budget);
    BeginsThenQuiet(m, a, Launch(env, m, root, e).value, e);
  }

  lemma BeginsQuietly(m: Machine, m': Machine, e: LogEntry)
    requires Begins(m, m', e) && e.Spawned? && e.block !in SignalBlocks(m.log)
    ensures Quiet(m, m')
  {
    hide Wired, SignalBlocks;
  }

  // ----- Handlers -----

  /** The callbacks of a future are no blocks for signals. */
  lemma {:induction false} CallbacksQuiet(env: Env, m: Machine, blocks: seq<nat>, v: Value)
    requires Wired(m) && RunCallbacks(env, m, blocks, v).Ok?
    requires forall b :: b in blocks ==> b < m.blocks && b !in SignalBlocks(m.log)
    ensures Quiet(m, RunCallbacks(env, m, blocks, v).value)
    decreases |blocks|
  {
    hide Launch, Wired, SignalBlocks;
    if blocks == [] {
      QuietReflexive(m);
    } else {
      var front, last := blocks[..|blocks| - 1], blocks[|blocks| - 1];
      assert forall b :: b in front ==> b in blocks;
      CallbacksQuiet(env, m, front, v);
      var before := RunCallbacks(env, m, front, v).value;
      var e := Spawned(|before.fibers|, last, Payload("", v));
      assert last in blocks;
      assert last < m.blocks && last !in SignalBlocks(before.log);
      LaunchBegins(env, before, false, e);
      var after := Launch(env, before, false, e).value;
      BeginsQuietly(before, after, e);
      QuietTransitive(m, before, after);
    }
  }

  lemma StatusQuiet(m: Machine, f: nat, status: Status)
    requires Wired(m) && f < |m.futures|
    ensures Quiet(m, WithStatus(m, f, status))
  {
    hide WorkflowList, SignalBlocks, RingsOf, Begans, Starters, DoneBlocks;
  }

  lemma CallbacksOfFuture(m: Machine, f: nat)
    requires Wired(m) && f < |m.futures|
    ensures forall b :: b in m.futures[f].callbacks ==> b < m.blocks && b !in SignalBlocks(m.log)
  {
  }

  lemma SettleQuiet(env: Env, m: Machine, f: nat, v: Value)
    requires Wired(m) && f < |m.futures| && SettleFuture(env, m, f, v).Ok?
    ensures Quiet(m, SettleFuture(env, m, f, v).value)
  {
    hide Wired, RunCallbacks, SignalBlocks;
    var a := WithStatus(m, f, Ready(v));
    StatusQuiet(m, f, Ready(v));
    CallbacksOfFuture(a, f);
    CallbacksQuiet(env, a, m.futures[f].callbacks, v);
    QuietTransitive(m, a, SettleFuture(env, m, f, v).value);
  }

  lemma ResumedQuiet(m: Machine, fiber: nat, e: LogEntry)
    requires Wired(m) && fiber < |m.fibers| && e.Answered? && e.request.Wait?
    ensures Quiet(m, Logged(m.(fibers := m.fibers[fiber := NotParked]), e))
  {
    hide WorkflowList;
    var m' := Logged(m.(fibers := m.fibers[fiber := NotParked]), e);
    LogSnoc(m.log, e, SignalBlocks(m.log));
    DoneSnoc(m.log, e);
    assert SignalBlocks(m'.log) == SignalBlocks(m.log) && m'.log == m.log + [e];
    assert forall i :: 0 <= i < |m.log| ==> m'.log[i] == m.log[i];
  }

  lemma WakeQuiet(env: Env, m: Machine, f: nat, fiber: nat)
    requires Wired(m) && f < |m.futures| && WakeFiber(env, m, f, fiber).Ok?
    ensures Quiet(m, WakeFiber(env, m, f, fiber).value)
  {
    hide Wired, Run, Quiet;
    if m.futures[f].status.Pending? {
      QuietReflexive(m);
    } else {
      var Parked(root, g) := m.fibers[fiber];
      var e := Answered(fiber, Wait(g), Observed(m.futures[g].status));
      var a := Logged(m.(fibers := m.fibers[fiber := NotParked]), e);
      ResumedQuiet(m, fiber, e);
      QuietWired(m, a);
      RunQuiet(env, a, fiber, root, env.budget);
      QuietTransitive(m, a, WakeFiber(env, m, f, fiber).value);
    }
  }

  lemma CallQuiet(env: Env, m: Machine, h: Handler, p: Payload)
    requires Wired(m) && !StartsFiber(h) && Call(env, m, h, p).Ok?
    ensures Quiet(m, Call(env, m, h, p).value)
  {
    hide Wired, Quiet, SettleFuture, WakeFiber;
    match h
    case Settle(f) => SettleQuiet(env, m, f, p.value);
    case Break(f) => StatusQuiet(m, f, Broken(p.text, p.value));
    case Wake(f, fiber) => WakeQuiet(env, m, f, fiber);
  }

  lemma {:induction false} CallAllQuiet(env: Env, m: Machine, hs: seq<Handler>, p: Payload)
    requires Wired(m) && CallAll(env, m, hs, p).Ok? && forall h :: h in hs ==> !StartsFiber(h)
    ensures Quiet(m, CallAll(env, m, hs, p).value)
  {
    hide Wired, Quiet, Call;
    if hs == [] {
      QuietReflexive(m);
    } else {
      var before := CallAll(env, m, hs[..|hs| - 1], p).value;
      CallAllQuiet(env, m, hs[..|hs| - 1], p);
      QuietWired(m, before);
      CallQuiet(env, before, hs[|hs| - 1], p);
      QuietTransitive(m, before, CallAll(env, m, hs, p).value);
    }
  }

  /** The blocks of a signal, one after the other. */
  lemma {:induction false} BlocksRing(env: Env, m: Machine, blocks: seq<nat>, p: Payload)
    requires Wired(m) && forall b :: b in blocks ==> b in SignalBlocks(m.log)
    requires CallAll(env, m, BlockHandlers(blocks), p).Ok?
    ensures
      var m' := CallAll(env, m, BlockHandlers(blocks), p).value;
      && Wired(m') && NewBlocks(m, m')
      && Begans(m'.log) == Begans(m.log) && Rings(m'.log) == Rings(m.log) + EachWith(blocks, p)
    decreases |blocks|
  {
    hide Launch, Wired, SignalBlocks, Rings, Begans;
    if blocks != [] {
      var front, last := blocks[..|blocks| - 1], blocks[|blocks| - 1];
      assert forall b :: b in front ==> b in blocks;
      assert BlockHandlers(blocks)[..|front|] == BlockHandlers(front);
      assert EachWith(blocks, p) == EachWith(front, p) + [Ring(last, p)];
      BlocksRing(env, m, front, p);
      var before := CallAll(env, m, BlockHandlers(front), p).value;
      assert last in blocks;
      BlockExists(before, last);
      LaunchBegins(env, before, false, Spawned(|before.fibers|, last, p));
    } else {
      assert EachWith(blocks, p) == [];
    }
  }

  lemma BlockExists(m: Machine, b: nat)
    requires Wired(m) && b in SignalBlocks(m.log)
    ensures b < m.blocks
  {
  }

  function BlockHandlers(blocks: seq<nat>): seq<Handler> {
    seq(|blocks|, i requires 0 <= i < |blocks| => SignalBlock(blocks[i]))
  }

  lemma {:induction false} SelectWorkflow(blocks: seq<nat>)
    ensures Select(WorkflowList(blocks), OnStarted) == [Begin]
    ensures Select(WorkflowList(blocks), OnSignaled) == BlockHandlers(blocks)
  {
    if blocks == [] {
      assert WorkflowList(blocks) == [Registration(OnStarted, Begin)];
      assert WorkflowList(blocks)[..0] == [];
    } else {
      var front := blocks[..|blocks| - 1];
      SelectWorkflow(front);
      assert WorkflowList(blocks)[..|blocks|] == WorkflowList(front);
    }
  }

  lemma {:induction false} SelectOthers(rs: seq<Registration>, name: Name)
    requires forall i :: 0 <= i < |rs| ==> !StartsFiber(rs[i].handler)
    ensures forall h :: h in Select(rs, name) ==> !StartsFiber(h)
  {
    if rs != [] {
      SelectOthers(rs[..|rs| - 1], name);
    }
  }

  // ----- Events -----

  /** What an event makes begin, and what it rings. */
  ghost predicate StartsAs(before: seq<LogEntry>, after: seq<LogEntry>, e: Event) {
    && Begans(after)
       == Begans(before) + (if e.kind.WorkflowExecutionStarted? then [e.kind.input] else [])
    && Rings(after)
       == Rings(before)
          + (if e.kind.WorkflowExecutionSignaled? then
               EachWith(SignalBlocks(before), Payload(e.kind.signalName, e.kind.input))
             else [])
  }

  lemma AnnounceStarts(env: Env, m: Machine, e: Event)
    requires Wired(m) && NoticeOf(e).Some? && Announce(env, m, NoticeOf(e).value).Ok?
    ensures
      var m' := Announce(env, m, NoticeOf(e).value).value;
      Wired(m') && StartsAs(m.log, m'.log, e)
  {
    hide *;
    if e.kind.WorkflowExecutionSignaled? {
      SignalStarts(env, m, e);
    } else if e.kind.WorkflowExecutionStarted? {
      WorkflowStarts(env, m, e);
    } else {
      NothingStarts(env, m, e);
    }
  }

  lemma SignalStarts(env: Env, m: Machine, e: Event)
    requires e.kind.WorkflowExecutionSignaled? && NoticeOf(e).Some?
    requires Wired(m) && Announce(env, m, NoticeOf(e).value).Ok?
    ensures
      var m' := Announce(env, m, NoticeOf(e).value).value;
      Wired(m') && StartsAs(m.log, m'.log, e)
  {
    hide Wired, CallAll, Rings, Begans, SignalBlocks, EachWith, WorkflowList, BlockHandlers;
    var blocks, p := SignalBlocks(m.log), Payload(e.kind.signalName, e.kind.input);
    WorkflowWired(m);
    SelectWorkflow(blocks);
    BlocksRing(env, m, blocks, p);
    NothingMore(Begans(m.log));
  }

  lemma WorkflowStarts(env: Env, m: Machine, e: Event)
    requires e.kind.WorkflowExecutionStarted? && NoticeOf(e).Some?
    requires Wired(m) && Announce(env, m, NoticeOf(e).value).Ok?
    ensures
      var m' := Announce(env, m, NoticeOf(e).value).value;
      Wired(m') && StartsAs(m.log, m'.log, e)
  {
    hide Wired, CallAll, Rings, Begans, SignalBlocks, EachWith, WorkflowList, BlockHandlers;
    WorkflowWired(m);
    SelectWorkflow(SignalBlocks(m.log));
    BeginOnly(env, m, NoticeOf(e).value.payload);
    NothingMore(Rings(m.log));
  }

  lemma NothingStarts(env: Env, m: Machine, e: Event)
    requires !e.kind.WorkflowExecutionSignaled? && !e.kind.WorkflowExecutionStarted? && NoticeOf(e).Some?
    requires Wired(m) && Announce(env, m, NoticeOf(e).value).Ok?
    ensures
      var m' := Announce(env, m, NoticeOf(e).value).value;
      Wired(m') && StartsAs(m.log, m'.log, e)
  {
    hide Wired, CallAll, Rings, Begans, SignalBlocks, EachWith, StartsFiber, Select;
    var n := NoticeOf(e).value;
    var rs := HandlersAt(m.handlers, n.target);
    OthersWired(m, n.target);
    SelectOthers(rs, n.name);
    CallAllQuiet(env, m, Select(rs, n.name), n.payload);
    NothingMore(Rings(m.log));
    NothingMore(Begans(m.log));
  }

  lemma WorkflowWired(m: Machine)
    requires Wired(m)
    ensures HandlersAt(m.handlers, WORKFLOW_TARGET) == WorkflowList(SignalBlocks(m.log))
  {
  }

  lemma OthersWired(m: Machine, t: Target)
    requires Wired(m) && t != WORKFLOW_TARGET
    ensures
      forall i :: 0 <= i < |HandlersAt(m.handlers, t)| ==> !StartsFiber(HandlersAt(m.handlers, t)[i].handler)
  {
  }

  lemma BeginOnly(env: Env, m: Machine, p: Payload)
    requires Wired(m) && CallAll(env, m, [Begin], p).Ok?
    ensures
      var m' := CallAll(env, m, [Begin], p).value;
      Wired(m') && Begans(m'.log) == Begans(m.log) + [p.value] && Rings(m'.log) == Rings(m.log)
  {
    hide Launch, Wired, Rings, Begans, SignalBlocks;
    var e := Began(|m.fibers|, p.value);
    assert [Begin][..0] == [];
    LaunchBegins(env, m, true, e);
  }

  lemma EventStarts(env: Env, m: Machine, e: Event)
    requires Wired(m) && ApplyEvent(env, m, e).Ok?
    ensures Wired(ApplyEvent(env, m, e).value) && StartsAs(m.log, ApplyEvent(env, m, e).value.log, e)
  {
    hide Wired, Announce, Absorb, Rings, Begans, SignalBlocks, Quiet, EachWith;
    var a := Absorbed(m, e);
    AbsorbedWired(m, a);
    if NoticeOf(e).Some? {
      AnnounceStarts(env, a, e);
    }
  }

  lemma AbsorbedWired(m: Machine, a: Machine)
    requires Wired(m) && a == m.(manager := a.manager)
    ensures Wired(a)
  {
    ManagerQuiet(m, a);
  }

  // ----- Callbacks -----

  lemma PerformLogs(env: Env, m: Machine, r: Request)
    ensures Perform(env, m, r).machine.log == m.log
  {
    hide ScheduleDecision, Register;
  }

  /** A running fiber runs no block. */
  lemma {:induction false} RunSpawnsNothing(env: Env, m: Machine, fiber: nat, root: bool, steps: nat)
    requires Run(env, m, fiber, root, steps).Ok?
    ensures Spawns(Run(env, m, fiber, root, steps).value.log) == Spawns(m.log)
    decreases steps
  {
    hide Perform, Spawns, ScheduleDecision, Register;
    var r := env.code(fiber, m.log);
    if !r.Return? && !r.Raise? && !MustPark(m, r) {
      var reply := Perform(env, m, r);
      var e := Answered(fiber, r, reply.answer);
      PerformLogs(env, m, r);
      DoneSnoc(m.log, e);
      NothingMore(Spawns(m.log));
      RunSpawnsNothing(env, Logged(reply.machine, e), fiber, root, steps - 1);
    }
  }

  lemma LaunchSpawns(env: Env, m: Machine, block: nat, p: Payload)
    requires Launch(env, m, false, Spawned(|m.fibers|, block, p)).Ok?
    ensures
      Spawns(Launch(env, m, false, Spawned(|m.fibers|, block, p)).value.log) == Spawns(m.log) + [Ring(block, p)]
  {
    hide Run, Spawns;
    var e := Spawned(|m.fibers|, block, p);
    DoneSnoc(m.log, e);
    RunSpawnsNothing(env, Logged(m.(fibers := m.fibers + [NotParked]), e), |m.fibers|, false, env.budget);
  }

  /** Settling a future runs its callbacks, each once and in order. */
  lemma {:induction false} CallbacksSpawn(env: Env, m: Machine, blocks: seq<nat>, v: Value)
    requires RunCallbacks(env, m, blocks, v).Ok?
    ensures Spawns(RunCallbacks(env, m, blocks, v).value.log) == Spawns(m.log) + EachWith(blocks, Payload("", v))
  {
    hide Launch, Spawns;
    var p := Payload("", v);
    if blocks == [] {
      assert EachWith(blocks, p) == [];
      NothingMore(Spawns(m.log));
    } else {
      var front, last := blocks[..|blocks| - 1], blocks[|blocks| - 1];
      CallbacksSpawn(env, m, front, v);
      LaunchSpawns(env, RunCallbacks(env, m, front, v).value, last, p);
      assert EachWith(blocks, p) == EachWith(front, p) + [Ring(last, p)];
    }
  }

  lemma WakeSpawnsNothing(env: Env, m: Machine, f: nat, fiber: nat)
    requires f < |m.futures| && WakeFiber(env, m, f, fiber).Ok?
    ensures Spawns(WakeFiber(env, m, f, fiber).value.log) == Spawns(m.log)
  {
    hide Run, Spawns;
    if !m.futures[f].status.Pending? {
      var Parked(root, g) := m.fibers[fiber];
      var e := Answered(fiber, Wait(g), Observed(m.futures[g].status));
      DoneSnoc(m.log, e);
      NothingMore(Spawns(m.log));
      RunSpawnsNothing(env, Logged(m.(fibers := m.fibers[fiber := NotParked]), e), fiber, root, env.budget);
    }
  }

  /** Waking fibers runs no block. */
  lemma {:induction false} WakesSpawnNothing(env: Env, m: Machine, hs: seq<Handler>, p: Payload)
    requires CallAll(env, m, hs, p).Ok? && forall h :: h in hs ==> h.Wake?
    ensures Spawns(CallAll(env, m, hs, p).value.log) == Spawns(m.log)
  {
    hide WakeFiber, Spawns;
    if hs != [] {
      var front, last := hs[..|hs| - 1], hs[|hs| - 1];
      assert last in hs && forall h :: h in front ==> h in hs;
      WakesSpawnNothing(env, m, front, p);
      WakeSpawnsNothing(env, CallAll(env, m, front, p).value, last.future, last.fiber);
    }
  }

  // ----- The theorem -----

  lemma {:induction false} TraceWired(env: Env, trace: seq<Machine>, es: seq<Event>, k: nat)
    requires Stepwise(env, trace, es) && k <= |es|
    ensures |trace| == |es| + 1 && Wired(trace[k])
  {
    hide Stepwise, Wired;
    StepwiseLength(env, trace, es);
    if k == 0 {
      FirstIsFresh(env, trace, es);
      FreshWired();
    } else {
      TraceWired(env, trace, es, k - 1);
      StepStarts(env, trace, es, k - 1);
    }
  }

  lemma FirstIsFresh(env: Env, trace: seq<Machine>, es: seq<Event>)
    requires Stepwise(env, trace, es)
    ensures trace[0] == FRESH_MACHINE
  {
  }

  lemma StepStarts(env: Env, trace: seq<Machine>, es: seq<Event>, k: nat)
    requires Stepwise(env, trace, es) && k < |es| && |trace| == |es| + 1 && Wired(trace[k])
    ensures Wired(trace[k + 1]) && StartsAs(trace[k].log, trace[k + 1].log, es[k])
  {
    hide ApplyEvent, Wired, StartsAs;
    assert StepOf(env, trace, es, k);
    var m :| SameButWindow(trace[k], m) && ApplyEvent(env, m, es[k]) == Ok(trace[k + 1]);
    AbsorbedWired(trace[k], m);
    EventStarts(env, m, es[k]);
  }

  /** Over every run of any code on any history, event by event: the start of the workflow begins one fiber with its
      input; a signal runs every block that the code had registered for signals by then, each once, in the order of
      registration, with the name and the input of the signal; and no other event does either. Fibers are numbered in
      the order in which they start, and the callbacks of a future are the blocks that the code registered for it. */
  lemma SignalsReachTheirBlocks(env: Env, h: seq<Event>)
    requires Execute(env, h).Ok?
    ensures
      var trace, es := Trace(env, Split(h)), Applied(Split(h));
      && |trace| == |es| + 1 && trace[0].log == [] && trace[|es|].log == Execute(env, h).value.log
      && forall k :: 0 <= k < |es| ==> StartsAs(trace[k].log, trace[k + 1].log, es[k])
    ensures
      forall k :: 0 <= k <= |Applied(Split(h))| ==> FromTheLog(Trace(env, Split(h))[k])
  {
    hide *;
    ExecuteTrace(env, h);
    var trace, es := Trace(env, Split(h)), Applied(Split(h));
    FirstLog(env, trace, es);
    forall k | 0 <= k < |es|
      ensures StartsAs(trace[k].log, trace[k + 1].log, es[k])
    {
      TraceWired(env, trace, es, k);
      StepStarts(env, trace, es, k);
    }
    forall k | 0 <= k <= |es|
      ensures FromTheLog(trace[k])
    {
      TraceWired(env, trace, es, k);
      WiredFromTheLog(trace[k]);
    }
  }

  /** Fibers are numbered in the order in which they started, and the callbacks of a future are the blocks that the code
      registered for it. */
  ghost predicate FromTheLog(m: Machine) {
    && |Starters(m.log)| == |m.fibers| && (forall k :: 0 <= k < |m.fibers| ==> Starters(m.log)[k] == k)
    && (forall f :: 0 <= f < |m.futures| ==> m.futures[f].callbacks == DoneBlocks(m.log, f))
  }

  lemma ExecuteTrace(env: Env, h: seq<Event>)
    requires Execute(env, h).Ok?
    ensures ApplyWindows(env, FRESH_MACHINE, Split(h)).Ok?
    ensures
      var trace, es := Trace(env, Split(h)), Applied(Split(h));
      && Stepwise(env, trace, es) && |trace| == |es| + 1
      && trace[|es|].log == Execute(env, h).value.log
  {
    hide ApplyWindows, Split, Applied, Trace, Stepwise;
    RunStepwise(env, Split(h));
  }

  lemma FirstLog(env: Env, trace: seq<Machine>, es: seq<Event>)
    requires Stepwise(env, trace, es)
    ensures |trace| > 0 && trace[0].log == []
  {
  }

  lemma WiredFromTheLog(m: Machine)
    requires Wired(m)
    ensures FromTheLog(m)
  {
  }
}
