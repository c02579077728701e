/** Dropping a release check: README.md promises that checks can be cleaned up once all runs answer them with true. */
module Erasure {
  import opened Base
  import opened Events
  import opened Histories
  import opened StateManagers
  import opened Checks
  import opened Engine
  import opened Growth

  /** The executor of the cleaned code: the same in every respect, except that it has not been asked. */
  function Stripped(m: Machine, name: string): Machine {
    m.(log := Strip(m.log, name))
  }

  /** Between two dispatches: the log is faithful and no fiber is left asking. */
  predicate AtRest(code: Code, log: seq<LogEntry>, name: string) {
    Faithful(code, log, name) && !Asks(code, log, name)
  }

  /** While `fiber` runs, the last entry of the log is its own. */
  predicate Running(code: Code, log: seq<LogEntry>, fiber: nat, name: string) {
    Faithful(code, log, name) && log != [] && log[|log| - 1].fiber == fiber
  }

  /** A successful run of the code, all checks true, matched by a run of the cleaned code. */
  ghost predicate Matches(code: Code, r: Result<Machine>, cleaned: Result<Machine>, name: string) {
    r.Ok? && AllAnswered(r.value.log, name, true) ==>
      cleaned == Ok(Stripped(r.value, name)) && AtRest(code, r.value.log, name)
  }

  ghost predicate Cleaning(e: Env, c: Env, name: string) {
    e.oracle == c.oracle && e.budget == c.budget && CleanedUp(e.code, c.code, name, true)
  }

  /** No request looks at the log. */
  lemma PerformIgnoresLog(e: Env, c: Env, m: Machine, log: seq<LogEntry>, r: Request)
    requires e.oracle == c.oracle
    ensures Perform(c, m.(log := log), r).answer == Perform(e, m, r).answer
    ensures Perform(c, m.(log := log), r).machine == Perform(e, m, r).machine.(log := log)
    ensures Perform(e, m, r).machine.log == m.log
  {
    hide Keeps, ScheduleDecision, CheckRelease, PerformSideEffect, Register;
    FutureIgnoresLog(m, log, r);
  }

  lemma FutureIgnoresLog(m: Machine, log: seq<LogEntry>, r: Request)
    ensures
      r.Wait? || r.Inspect? || r.OnDone? || r.CancelFuture? ==>
        && AskFuture(m.(log := log), r).answer == AskFuture(m, r).answer
        && AskFuture(m.(log := log), r).machine == AskFuture(m, r).machine.(log := log)
        && AskFuture(m, r).machine.log == m.log
  {
  }

  /** During replay a check that answers true has changed nothing. */
  lemma TrueCheckIsFree(e: Env, m: Machine, name: string)
    requires m.manager.replay && Perform(e, m, HasRelease(name)).answer == Flag(true)
    ensures Perform(e, m, HasRelease(name)).machine == m
  {
  }

  lemma LoggedStripped(code: Code, m: Machine, e: LogEntry, name: string)
    requires AtRest(code, m.log, name) && !IsCheck(e, name)
    ensures Stripped(Logged(m, e), name) == Logged(Stripped(m, name), e)
    ensures Running(code, Logged(m, e).log, e.fiber, name)
  {
    StripSnoc(m.log, e, name);
    FaithfulSnoc(code, m.log, e, name);
  }

  /** The cleaned code does what the code does next, unless that is a check. */
  lemma SameNextRequest(e: Env, c: Env, m: Machine, fiber: nat, name: string)
    requires Cleaning(e, c, name) && Running(e.code, m.log, fiber, name) && AllAnswered(m.log, name, true)
    ensures e.code(fiber, m.log) != HasRelease(name) ==>
      c.code(fiber, Stripped(m, name).log) == e.code(fiber, m.log) && AtRest(e.code, m.log, name)
  {
    hide Faithful, Strip;
  }

  lemma {:induction false} RunMatches(e: Env, c: Env, m: Machine, fiber: nat, root: bool, steps: nat, steps': nat,
          name: string)
    requires Cleaning(e, c, name) && Running(e.code, m.log, fiber, name) && m.manager.replay && steps <= steps'
    ensures Matches(e.code, Run(e, m, fiber, root, steps), Run(c, Stripped(m, name), fiber, root, steps'), name)
    decreases steps
  {
    hide Perform, Keeps, AllAnswerable, Running, Faithful, IsCheck, Strip, CleanedUp, AtRest, AllAnswered;
    var result := Run(e, m, fiber, root, steps);
    if steps > 0 && result.Ok? && AllAnswered(result.value.log, name, true) {
      RunGrows(e, m, fiber, root, steps);
      AllAnsweredPrefix(m.log, result.value.log, name, true);
      SameNextRequest(e, c, m, fiber, name);
      var r := e.code(fiber, m.log);
      if !(r.Return? || r.Raise?) && !MustPark(m, r) {
        StepMatches(e, c, m, fiber, root, steps, steps', name);
      }
    }
  }

  lemma {:induction false} StepMatches(e: Env, c: Env, m: Machine, fiber: nat, root: bool, steps: nat, steps': nat,
          name: string)
    requires Cleaning(e, c, name) && Running(e.code, m.log, fiber, name) && m.manager.replay && 0 < steps <= steps'
    requires Run(e, m, fiber, root, steps).Ok? && AllAnswered(Run(e, m, fiber, root, steps).value.log, name, true)
    requires
      var r := e.code(fiber, m.log);
      && !r.Return? && !r.Raise? && !MustPark(m, r)
      && (r != HasRelease(name) ==>
            c.code(fiber, Stripped(m, name).log) == r && AtRest(e.code, m.log, name))
    ensures Matches(e.code, Run(e, m, fiber, root, steps), Run(c, Stripped(m, name), fiber, root, steps'), name)
    decreases steps, 0
  {
    hide Perform, AllAnswerable, Faithful, AllAnswered, Strip, OnlyRequests, CleanedUp, Finish, Park;
    var r := e.code(fiber, m.log);
    var reply := Perform(e, m, r);
    var entry := Answered(fiber, r, reply.answer);
    var next := Logged(reply.machine, entry);
    RunGrows(e, next, fiber, root, steps - 1);
    PerformIgnoresLog(e, c, m, Strip(m.log, name), r);
    if r == HasRelease(name) {
      var after := Run(e, m, fiber, root, steps).value;
      AnsweredTrue(next.log, after.log, name, entry);
      TrueCheckIsFree(e, m, name);
      StripSnoc(m.log, entry, name);
      FaithfulSnoc(e.code, m.log, entry, name);
      assert Stripped(next, name) == Stripped(m, name);
      RunMatches(e, c, next, fiber, root, steps - 1, steps', name);
    } else {
      LoggedStripped(e.code, reply.machine, entry, name);
      RunMatches(e, c, next, fiber, root, steps - 1, steps' - 1, name);
    }
  }

  lemma AnsweredTrue(shorter: seq<LogEntry>, longer: seq<LogEntry>, name: string, e: LogEntry)
    requires shorter <= longer && AllAnswered(longer, name, true) && shorter != [] && shorter[|shorter| - 1] == e
        && IsCheck(e, name)
    ensures e.answer == Flag(true)
  {
    assert longer[|shorter| - 1] == e;
  }

  lemma LaunchMatches(e: Env, c: Env, m: Machine, root: bool, entry: LogEntry, name: string)
    requires Cleaning(e, c, name) && AtRest(e.code, m.log, name) && m.manager.replay
    requires !entry.Answered? && entry.fiber == |m.fibers|
    ensures Matches(e.code, Launch(e, m, root, entry), Launch(c, Stripped(m, name), root, entry), name)
  {
    hide Run, Strip, CleanedUp, AllAnswered, Matches, Faithful, Asks, AtRest, Running;
    var m1 := m.(fibers := m.fibers + [NotParked]);
    LoggedStripped(e.code, m1, entry, name);
    RunMatches(e, c, Logged(m1, entry), |m.fibers|, root, e.budget, c.budget, name);
  }

  lemma {:induction false} RunCallbacksMatches(e: Env, c: Env, m: Machine, blocks: seq<nat>, v: Value, name: string)
    requires Cleaning(e, c, name) && AtRest(e.code, m.log, name) && m.manager.replay
    ensures Matches(e.code, RunCallbacks(e, m, blocks, v), RunCallbacks(c, Stripped(m, name), blocks, v), name)
    decreases |blocks|
  {
    if blocks != [] {
      var front, last := blocks[..|blocks| - 1], blocks[|blocks| - 1];
      var before, result := RunCallbacks(e, m, front, v), RunCallbacks(e, m, blocks, v);
      RunCallbacksMatches(e, c, m, front, v, name);
      RunCallbacksGrows(e, m, front, v);
      if before.Ok? {
        var entry := Spawned(|before.value.fibers|, last, Payload("", v));
        LaunchGrows(e, before.value, false, entry);
        if result.Ok? && AllAnswered(result.value.log, name, true) {
          AllAnsweredPrefix(before.value.log, result.value.log, name, true);
          LaunchMatches(e, c, before.value, false, entry, name);
        }
      }
    }
  }

  lemma WakeMatches(e: Env, c: Env, m: Machine, f: nat, fiber: nat, name: string)
    requires Cleaning(e, c, name) && AtRest(e.code, m.log, name) && m.manager.replay && f < |m.futures|
    ensures Matches(e.code, WakeFiber(e, m, f, fiber), WakeFiber(c, Stripped(m, name), f, fiber), name)
  {
    hide Run, Strip, CleanedUp, AllAnswered, Faithful, Asks, AtRest, Running, Matches;
    if m.futures[f].status.Pending? || fiber >= |m.fibers| || !m.fibers[fiber].Parked? {
      NothingMatches(e, c, m, name);
    } else {
      var Parked(root, g) := m.fibers[fiber];
      if g < |m.futures| {
        var resumed := m.(fibers := m.fibers[fiber := NotParked]);
        var entry := Answered(fiber, Wait(g), Observed(m.futures[g].status));
        LoggedStripped(e.code, resumed, entry, name);
        RunMatches(e, c, Logged(resumed, entry), fiber, root, e.budget, c.budget, name);
      } else {
        NothingMatches(e, c, m, name);
      }
    }
  }

  lemma NothingMatches(e: Env, c: Env, m: Machine, name: string)
    requires AtRest(e.code, m.log, name)
    ensures Matches(e.code, Ok(m), Ok(Stripped(m, name)), name)
    ensures forall error :: Matches(e.code, Err(error), Err(error), name)
  {
  }

  lemma SettleMatches(e: Env, c: Env, m: Machine, f: nat, v: Value, name: string)
    requires Cleaning(e, c, name) && AtRest(e.code, m.log, name) && m.manager.replay && f < |m.futures|
    ensures Matches(e.code, SettleFuture(e, m, f, v), SettleFuture(c, Stripped(m, name), f, v), name)
  {
    hide RunCallbacks, Strip, CleanedUp, AllAnswered, Faithful, Asks, AtRest, Running, Matches;
    NothingMatches(e, c, m, name);
    RunCallbacksMatches(e, c, WithStatus(m, f, Ready(v)), m.futures[f].callbacks,
        v, name);
  }

  lemma CallMatches(e: Env, c: Env, m: Machine, h: Handler, p: Payload, name: string)
    requires Cleaning(e, c, name) && AtRest(e.code, m.log, name) && m.manager.replay
    ensures Matches(e.code, Call(e, m, h, p), Call(c, Stripped(m, name), h, p), name)
  {
    BreakMatches(e, c, m, name);
    hide Launch, SettleFuture, WakeFiber, AtRest, AllAnswered, Strip, Matches, Cleaning;
    NothingMatches(e, c, m, name);
    match h
    case Begin => LaunchMatches(e, c, m, true, Began(|m.fibers|, p.value), name);
    case SignalBlock(b) => LaunchMatches(e, c, m, false, Spawned(|m.fibers|, b, p), name);
    case Settle(f) =>
      if f < |m.futures| {
        SettleMatches(e, c, m, f, p.value, name);
      }
    case Break(f) =>
    case Wake(f, fiber) =>
      if f < |m.futures| {
        WakeMatches(e, c, m, f, fiber, name);
      }
  }

  lemma BreakMatches(e: Env, c: Env, m: Machine, name: string)
    requires AtRest(e.code, m.log, name)
    ensures
      forall f: nat, p: Payload :: f < |m.futures| ==>
        Matches(e.code, BreakFuture(m, f, p), BreakFuture(Stripped(m, name), f, p), name)
  {
  }

  lemma {:induction false} CallAllMatches(e: Env, c: Env, m: Machine, hs: seq<Handler>, p: Payload, name: string)
    requires Cleaning(e, c, name) && AtRest(e.code, m.log, name) && m.manager.replay
    ensures Matches(e.code, CallAll(e, m, hs, p), CallAll(c, Stripped(m, name), hs, p), name)
    decreases |hs|
  {
    hide AtRest, AllAnswered, Strip, Call, Keeps, AllAnswerable;
    if hs != [] {
      var front, last := hs[..|hs| - 1], hs[|hs| - 1];
      var before, result := CallAll(e, m, front, p), CallAll(e, m, hs, p);
      CallAllMatches(e, c, m, front, p, name);
      CallAllGrows(e, m, front, p);
      if before.Ok? {
        CallGrows(e, before.value, last, p);
        KeepsReplay(m, before.value);
        if result.Ok? && AllAnswered(result.value.log, name, true) {
          AllAnsweredPrefix(before.value.log, result.value.log, name, true);
          CallMatches(e, c, before.value, last, p, name);
        }
      }
    }
  }

  lemma KeepsReplay(m: Machine, m': Machine)
    requires Grows(m, m')
    ensures m'.manager.replay == m.manager.replay && m.log <= m'.log
  {
  }

  lemma AbsorbKeepsReplay(m: ManagerState, event: Event)
    requires Absorb(m, event).Ok?
    ensures Absorb(m, event).value.replay == m.replay
  {
  }

  lemma ApplyEventMatches(e: Env, c: Env, m: Machine, event: Event, name: string)
    requires Cleaning(e, c, name) && AtRest(e.code, m.log, name) && m.manager.replay
    ensures Matches(e.code, ApplyEvent(e, m, event), ApplyEvent(c, Stripped(m, name), event), name)
    ensures ApplyEvent(e, m, event).Ok? ==>
      m.log <= ApplyEvent(e, m, event).value.log && ApplyEvent(e, m, event).value.manager.replay
  {
    var absorbed := Absorb(m.manager, event);
    if absorbed.Ok? {
      AbsorbKeepsReplay(m.manager, event);
      hide Absorb, NoticeOf, CallAll, Strip, AtRest, AllAnswered, CleanedUp, Keeps, AllAnswerable, Cleaning;
      var m1 := m.(manager := absorbed.value);
      var notice := NoticeOf(event);
      if notice.Some? {
        var hs := Select(HandlersAt(m.handlers, notice.value.target), notice.value.name);
        CallAllGrows(e, m1, hs, notice.value.payload);
        CallAllMatches(e, c, m1, hs, notice.value.payload, name);
      }
    }
  }

  lemma {:induction false} ApplyEventsMatches(e: Env, c: Env, m: Machine, es: seq<Event>, name: string)
    requires Cleaning(e, c, name) && AtRest(e.code, m.log, name) && m.manager.replay
    ensures Matches(e.code, ApplyEvents(e, m, es), ApplyEvents(c, Stripped(m, name), es), name)
    ensures ApplyEvents(e, m, es).Ok? ==>
      m.log <= ApplyEvents(e, m, es).value.log && ApplyEvents(e, m, es).value.manager.replay
    decreases |es|
  {
    hide AtRest, AllAnswered, Strip, ApplyEvent;
    if es != [] {
      var front, last := es[..|es| - 1], es[|es| - 1];
      var before, result := ApplyEvents(e, m, front), ApplyEvents(e, m, es);
      ApplyEventsMatches(e, c, m, front, name);
      if before.Ok? && result.Ok? && AllAnswered(result.value.log, name, true) {
        EventLogGrows(e, before.value, last);
        AllAnsweredPrefix(before.value.log, result.value.log, name, true);
        ApplyEventMatches(e, c, before.value, last, name);
      } else if before.Ok? {
        EventLogGrows(e, before.value, last);
      }
    }
  }

  lemma EventLogGrows(e: Env, m: Machine, event: Event)
    ensures ApplyEvent(e, m, event).Ok? ==>
      m.log <= ApplyEvent(e, m, event).value.log && ApplyEvent(e, m, event).value.manager.replay == m.manager.replay
  {
    var absorbed := Absorb(m.manager, event);
    if absorbed.Ok? && NoticeOf(event).Some? {
      var n := NoticeOf(event).value;
      CallAllGrows(e, m.(manager := absorbed.value), Select(HandlersAt(m.handlers, n.target), n.name), n.payload);
    }
  }

  lemma WindowMatches(e: Env, c: Env, m: Machine, w: WindowState, name: string)
    requires Cleaning(e, c, name) && AtRest(e.code, m.log, name) && w.replay
    ensures Matches(e.code, ApplyWindow(e, m, w), ApplyWindow(c, Stripped(m, name), w), name)
    ensures ApplyWindow(e, m, w).Ok? ==> m.log <= ApplyWindow(e, m, w).value.log
  {
    var entered := Entered(m, w);
    assert Entered(Stripped(m, name), w) == Stripped(entered, name);
    var loaded, result := ApplyEvents(e, entered, w.markers), ApplyWindow(e, m, w);
    hide AtRest, AllAnswered, Strip, ApplyEvents;
    ApplyEventsMatches(e, c, entered, w.markers, name);
    if loaded.Ok? && result.Ok? {
      if AllAnswered(result.value.log, name, true) {
        EventsLogGrow(e, loaded.value, w.events);
        AllAnsweredPrefix(loaded.value.log, result.value.log, name, true);
        ApplyEventsMatches(e, c, loaded.value, w.events, name);
      } else {
        EventsLogGrow(e, loaded.value, w.events);
      }
    }
  }

  lemma {:induction false} EventsLogGrow(e: Env, m: Machine, es: seq<Event>)
    ensures ApplyEvents(e, m, es).Ok? ==> m.log <= ApplyEvents(e, m, es).value.log
    decreases |es|
  {
    if es != [] {
      EventsLogGrow(e, m, es[..|es| - 1]);
      var before := ApplyEvents(e, m, es[..|es| - 1]);
      if before.Ok? {
        EventLogGrows(e, before.value, es[|es| - 1]);
      }
    }
  }

  lemma {:induction false} WindowsMatch(e: Env, c: Env, segments: seq<seq<Event>>, name: string)
    requires Cleaning(e, c, name) && AllRecorded(segments)
    ensures Matches(e.code, ApplyWindows(e, FRESH_MACHINE, segments), ApplyWindows(c, FRESH_MACHINE, segments), name)
    decreases |segments|
  {
    hide ApplyWindow;
    if segments != [] {
      var front, last := segments[..|segments| - 1], Collect(segments[|segments| - 1]);
      var before, result := ApplyWindows(e, FRESH_MACHINE, front), ApplyWindows(e, FRESH_MACHINE, segments);
      WindowsMatch(e, c, front, name);
      if result.Ok? && AllAnswered(result.value.log, name, true) {
        WindowLogGrows(e, before.value, last);
        AllAnsweredPrefix(before.value.log, result.value.log, name, true);
        WindowMatches(e, c, before.value, last, name);
      }
    }
  }

  lemma WindowLogGrows(e: Env, m: Machine, w: WindowState)
    ensures ApplyWindow(e, m, w).Ok? ==> m.log <= ApplyWindow(e, m, w).value.log
  {
    EventsLogGrow(e, Entered(m, w), w.markers);
    var loaded := ApplyEvents(e, Entered(m, w), w.markers);
    if loaded.Ok? {
      EventsLogGrow(e, loaded.value, w.events);
    }
  }

  /** Erasing a release check preserves replay: on any history of completed tasks that the original code replays
      without an error and with every check of the release true, the cleaned code replays too and ends in the same
      state in every respect, ids, matches, futures, handlers and markers included, except that it was never asked. */
  lemma ErasingCheckPreservesReplay(env: Env, cleaned: Code, name: string, history: seq<Event>)
    requires CleanedUp(env.code, cleaned, name, true) && AllRecorded(Split(history))
    requires Execute(env, history).Ok? && AllAnswered(Execute(env, history).value.log, name, true)
    ensures Execute(env.(code := cleaned), history) == Ok(Stripped(Execute(env, history).value, name))
  {
    WindowsMatch(env, env.(code := cleaned), Split(history), name);
  }

  /** The same of any program, whatever its fibers share: it has a cleaned version, and that replays its histories. */
  lemma EveryCheckCanBeErased(env: Env, name: string, history: seq<Event>)
    requires AllRecorded(Split(history))
    requires Execute(env, history).Ok? && AllAnswered(Execute(env, history).value.log, name, true)
    ensures CleanedUp(env.code, Plain(env.code, name, true), name, true)
    ensures Execute(env.(code := Plain(env.code, name, true)), history)
            == Ok(Stripped(Execute(env, history).value, name))
  {
    hide Execute, CleanedUp, AllRecorded;
    EveryCheckCanBeDropped(env.code, name, true);
    ErasingCheckPreservesReplay(env, Plain(env.code, name, true), name, history);
  }
}
