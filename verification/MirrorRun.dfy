/** Lifts the mirror relation from the state manager to fibers, handlers and events. */
module MirrorRun {
  import opened Base
  import opened Decisions
  import opened Events
  import opened StateManagers
  import opened Engine
  import opened Growth
  import opened Mirror

  lemma StartTrackedMirrors(f: Machine, g: Machine, d: Decision, settled: Name, broken: Name, plan: seq<Entry>,
          base: int)
    requires Mirrors(f, g, plan, base) && (d.ScheduleActivity? || d.StartChildWorkflow? || d.StartTimer?)
    requires f.manager.replay ==> StartTracked(g, d, settled, broken).machine.manager.decisions <= plan
    ensures StartTracked(f, d, settled, broken).answer == StartTracked(g, d, settled, broken).answer
    ensures Mirrors(StartTracked(f, d, settled, broken).machine, StartTracked(g, d, settled, broken).machine, plan,
        base)
  {
    ScheduleMirrors(f.manager, g.manager, d, plan, base);
  }

  lemma StartPlainMirrors(f: Machine, g: Machine, d: Decision, plan: seq<Entry>, base: int)
    requires Mirrors(f, g, plan, base) && !d.RecordMarker?
    requires f.manager.replay ==> StartPlain(g, d).machine.manager.decisions <= plan
    ensures StartPlain(f, d).answer == StartPlain(g, d).answer
    ensures Mirrors(StartPlain(f, d).machine, StartPlain(g, d).machine, plan, base)
  {
    ScheduleMirrors(f.manager, g.manager, d, plan, base);
  }

  lemma CancelTrackedMirrors(f: Machine, g: Machine, future: Future, plan: seq<Entry>, base: int)
    requires Mirrors(f, g, plan, base)
    requires f.manager.replay ==> CancelTracked(g, future).machine.manager.decisions <= plan
    ensures CancelTracked(f, future).answer == CancelTracked(g, future).answer
    ensures Mirrors(CancelTracked(f, future).machine, CancelTracked(g, future).machine, plan, base)
  {
    if future.status.Pending? && future.target.kind == Activity {
      StartPlainMirrors(f, g, RequestActivityCancellation(future.cancelationId), plan, base);
    } else if future.status.Pending? && future.target.kind == Timer {
      StartPlainMirrors(f, g, CancelTimer(future.cancelationId), plan, base);
    }
  }

  lemma AskFutureMirrors(f: Machine, g: Machine, r: Request, plan: seq<Entry>, base: int)
    requires r.Wait? || r.Inspect? || r.OnDone? || r.CancelFuture?
    requires Mirrors(f, g, plan, base)
    requires f.manager.replay ==> AskFuture(g, r).machine.manager.decisions <= plan
    ensures AskFuture(f, r).answer == AskFuture(g, r).answer
    ensures Mirrors(AskFuture(f, r).machine, AskFuture(g, r).machine, plan, base)
  {
    hide StartPlain, ManagersMirror;
    if r.CancelFuture? && r.future < |f.futures| {
      CancelTrackedMirrors(f, g, f.futures[r.future], plan, base);
    }
  }

  lemma PerformMirrors(ef: Env, eg: Env, f: Machine, g: Machine, r: Request, plan: seq<Entry>, base: int)
    requires Mirrors(f, g, plan, base) && SameEnv(ef, eg, f.manager.replay)
    requires f.manager.replay ==> Perform(eg, g, r).machine.manager.decisions <= plan
    ensures Perform(ef, f, r).answer == Perform(eg, g, r).answer
    ensures Mirrors(Perform(ef, f, r).machine, Perform(eg, g, r).machine, plan, base)
  {
    hide StartTracked, StartPlain, AskFuture, PerformSideEffect, CheckRelease, Keeps, Follows;
    if StartsTracked(r) {
      var t := TrackedFor(r);
      StartTrackedMirrors(f, g, t.decision, t.settled, t.broken, plan, base);
    } else if StartsPlain(r) {
      StartPlainMirrors(f, g, PlainFor(r), plan, base);
    } else if r.DrawSideEffect? {
      SideEffectMirrors(f.manager, g.manager, ef.oracle(f.manager.lastEventId), eg.oracle(g.manager.lastEventId),
          plan, base);
    } else if r.HasRelease? {
      ReleaseMirrors(f.manager, g.manager, r.name, plan, base);
    } else if r.Wait? || r.Inspect? || r.OnDone? || r.CancelFuture? {
      AskFutureMirrors(f, g, r, plan, base);
    }
  }

  lemma FailRootMirrors(f: Machine, g: Machine, reason: string, details: Value, plan: seq<Entry>, base: int)
    requires Mirrors(f, g, plan, base) && Recorded(f.manager.replay, FailRoot(g, reason, details), plan)
    ensures MirrorResults(FailRoot(f, reason, details), FailRoot(g, reason, details), plan, base, f.manager.replay)
  {
    ScheduleMirrors(f.manager, g.manager, FailWorkflow(reason, details), plan, base);
  }

  lemma FinishMirrors(f: Machine, g: Machine, root: bool, r: Request, plan: seq<Entry>, base: int)
    requires r.Return? || r.Raise?
    requires Mirrors(f, g, plan, base) && Recorded(f.manager.replay, Finish(g, root, r), plan)
    ensures MirrorResults(Finish(f, root, r), Finish(g, root, r), plan, base, f.manager.replay)
  {
    if root && r.Raise? {
      FailRootMirrors(f, g, r.reason, r.details, plan, base);
    } else if root {
      var d := CompleteWorkflow(r.result);
      ScheduleMirrors(f.manager, g.manager, d, plan, base);
      var completedF, completedG := ScheduleDecision(f.manager, d), ScheduleDecision(g.manager, d);
      if completedG.result.Err? {
        FailRootMirrors(f.(manager := completedF.state), g.(manager := completedG.state), "Error", Null, plan, base);
      }
    }
  }

  lemma ParkMirrors(f: Machine, g: Machine, fiber: nat, root: bool, future: nat, plan: seq<Entry>, base: int)
    requires Mirrors(f, g, plan, base) && future < |f.futures|
    ensures Mirrors(Park(f, fiber, root, future), Park(g, fiber, root, future), plan, base)
    ensures Park(f, fiber, root, future).manager.replay == f.manager.replay
  {
    hide ManagersMirror;
  }

  lemma {:induction false} RunMirrors(ef: Env, eg: Env, f: Machine, g: Machine, fiber: nat, root: bool, steps: nat,
                                      plan: seq<Entry>, base: int)
    requires Mirrors(f, g, plan, base) && SameEnv(ef, eg, f.manager.replay)
    requires Recorded(f.manager.replay, Run(eg, g, fiber, root, steps), plan)
    ensures MirrorResults(Run(ef, f, fiber, root, steps), Run(eg, g, fiber, root, steps), plan, base, f.manager.replay)
    decreases steps
  {
    hide Perform, ManagersMirror, Finish, Park, Run;
    RunUnfolds(ef, f, fiber, root, steps);
    RunUnfolds(eg, g, fiber, root, steps);
    if steps > 0 {
      var r := eg.code(fiber, g.log);
      if r.Return? || r.Raise? {
        FinishMirrors(f, g, root, r, plan, base);
      } else if !MustPark(g, r) {
        var replyF, replyG := Perform(ef, f, r), Perform(eg, g, r);
        var g1 := Logged(replyG.machine, Answered(fiber, r, replyG.answer));
        RunGrows(eg, g1, fiber, root, steps - 1);
        PerformMirrors(ef, eg, f, g, r, plan, base);
        var f1 := Logged(replyF.machine, Answered(fiber, r, replyF.answer));
        RunMirrors(ef, eg, f1, g1, fiber, root, steps - 1, plan, base);
      } else {
        ParkMirrors(f, g, fiber, root, r.future, plan, base);
      }
    }
  }

  lemma LaunchMirrors(ef: Env, eg: Env, f: Machine, g: Machine, root: bool, e: LogEntry, plan: seq<Entry>, base: int)
    requires Mirrors(f, g, plan, base) && SameEnv(ef, eg, f.manager.replay)
    requires Recorded(f.manager.replay, Launch(eg, g, root, e), plan)
    ensures MirrorResults(Launch(ef, f, root, e), Launch(eg, g, root, e), plan, base, f.manager.replay)
  {
    var f1 := Logged(f.(fibers := f.fibers + [NotParked]), e);
    var g1 := Logged(g.(fibers := g.fibers + [NotParked]), e);
    RunMirrors(ef, eg, f1, g1, |f.fibers|, root, ef.budget, plan, base);
  }

  lemma {:induction false} RunCallbacksMirrors(ef: Env, eg: Env, f: Machine, g: Machine, blocks: seq<nat>, v: Value,
                                               plan: seq<Entry>, base: int)
    requires Mirrors(f, g, plan, base) && SameEnv(ef, eg, f.manager.replay)
    requires Recorded(f.manager.replay, RunCallbacks(eg, g, blocks, v), plan)
    ensures MirrorResults(RunCallbacks(ef, f, blocks, v), RunCallbacks(eg, g, blocks, v), plan, base, f.manager.replay)
    decreases |blocks|
  {
    if blocks != [] {
      var front, last := blocks[..|blocks| - 1], blocks[|blocks| - 1];
      var before := RunCallbacks(eg, g, front, v);
      if before.Ok? {
        LaunchGrows(eg, before.value, false, Spawned(|before.value.fibers|, last, Payload("", v)));
      }
      RunCallbacksMirrors(ef, eg, f, g, front, v, plan, base);
      if before.Ok? {
        var f1 := RunCallbacks(ef, f, front, v).value;
        LaunchMirrors(ef, eg, f1, before.value, false, Spawned(|f1.fibers|, last, Payload("", v)), plan, base);
      }
    }
  }

  lemma WakeFiberMirrors(ef: Env, eg: Env, f: Machine, g: Machine, future: nat, fiber: nat, plan: seq<Entry>, base: int)
    requires Mirrors(f, g, plan, base) && SameEnv(ef, eg, f.manager.replay) && future < |f.futures|
    requires Recorded(f.manager.replay, WakeFiber(eg, g, future, fiber), plan)
    ensures MirrorResults(WakeFiber(ef, f, future, fiber), WakeFiber(eg, g, future, fiber), plan, base,
        f.manager.replay)
  {
    if !f.futures[future].status.Pending? && fiber < |f.fibers| && f.fibers[fiber].Parked?
        && f.fibers[fiber].future < |f.futures| {
      var Parked(root, w) := f.fibers[fiber];
      var e := Answered(fiber, Wait(w), Observed(f.futures[w].status));
      var f1 := Logged(f.(fibers := f.fibers[fiber := NotParked]), e);
      var g1 := Logged(g.(fibers := g.fibers[fiber := NotParked]), e);
      RunMirrors(ef, eg, f1, g1, fiber, root, ef.budget, plan, base);
    }
  }

  lemma CallMirrors(ef: Env, eg: Env, f: Machine, g: Machine, h: Handler, p: Payload, plan: seq<Entry>, base: int)
    requires Mirrors(f, g, plan, base) && SameEnv(ef, eg, f.manager.replay)
    requires Recorded(f.manager.replay, Call(eg, g, h, p), plan)
    ensures MirrorResults(Call(ef, f, h, p), Call(eg, g, h, p), plan, base, f.manager.replay)
  {
    match h
    case Begin => LaunchMirrors(ef, eg, f, g, true, Began(|f.fibers|, p.value), plan, base);
    case SignalBlock(b) => LaunchMirrors(ef, eg, f, g, false, Spawned(|f.fibers|, b, p), plan, base);
    case Settle(i) =>
      if i < |f.futures| && !f.futures[i].status.Broken? {
        var futures := f.futures[i := f.futures[i].(status := Ready(p.value))];
        RunCallbacksMirrors(ef, eg, f.(futures := futures), g.(futures := futures), f.futures[i].callbacks, p.value,
            plan, base);
      }
    case Break(i) =>
    case Wake(i, fiber) =>
      if i < |f.futures| {
        WakeFiberMirrors(ef, eg, f, g, i, fiber, plan, base);
      }
  }

  lemma {:induction false} CallAllMirrors(ef: Env, eg: Env, f: Machine, g: Machine, hs: seq<Handler>, p: Payload,
                                          plan: seq<Entry>, base: int)
    requires Mirrors(f, g, plan, base) && SameEnv(ef, eg, f.manager.replay)
    requires Recorded(f.manager.replay, CallAll(eg, g, hs, p), plan)
    ensures MirrorResults(CallAll(ef, f, hs, p), CallAll(eg, g, hs, p), plan, base, f.manager.replay)
    decreases |hs|
  {
    if hs != [] {
      var front, last := hs[..|hs| - 1], hs[|hs| - 1];
      var before := CallAll(eg, g, front, p);
      if before.Ok? {
        CallGrows(eg, before.value, last, p);
      }
      CallAllMirrors(ef, eg, f, g, front, p, plan, base);
      if before.Ok? {
        CallMirrors(ef, eg, CallAll(ef, f, front, p).value, before.value, last, p, plan, base);
      }
    }
  }

  /** News is absorbed alike: it touches only the tracker. */
  lemma NewsAbsorbs(f: Machine, g: Machine, e: Event, plan: seq<Entry>, base: int)
    requires Mirrors(f, g, plan, base) && !e.kind.Discards() && !e.kind.MarkerRecorded?
    ensures
      match (Absorb(f.manager, e), Absorb(g.manager, e))
      case (Ok(f1), Ok(g1)) =>
        && Mirrors(f.(manager := f1), g.(manager := g1), plan, base)
        && f1.replay == f.manager.replay
      case (Err(x), Err(y)) => x == y != NonDeterministicWorkflow
      case _ => false
    ensures f.handlers == g.handlers
  {
  }

  lemma ApplyEventMirrors(ef: Env, eg: Env, f: Machine, g: Machine, e: Event, plan: seq<Entry>, base: int)
    requires Mirrors(f, g, plan, base) && SameEnv(ef, eg, f.manager.replay)
    requires !e.kind.Discards() && !e.kind.MarkerRecorded?
    requires Recorded(f.manager.replay, ApplyEvent(eg, g, e), plan)
    ensures MirrorResults(ApplyEvent(ef, f, e), ApplyEvent(eg, g, e), plan, base, f.manager.replay)
  {
    NewsAbsorbs(f, g, e, plan, base);
    hide Absorb, NoticeOf, Mirrors;
    var absorbedF, absorbedG := Absorb(f.manager, e), Absorb(g.manager, e);
    var notice := NoticeOf(e);
    if absorbedG.Ok? {
      var f1, g1 := f.(manager := absorbedF.value), g.(manager := absorbedG.value);
      if notice.Some? {
        var n := notice.value;
        var hs := Select(HandlersAt(g1.handlers, n.target), n.name);
        CallAllGrows(eg, g1, hs, n.payload);
        CallAllMirrors(ef, eg, f1, g1, hs, n.payload, plan, base);
      }
    }
  }

  /** Events that carry news from outside, as opposed to the echo of the workflow's own commands. */
  predicate News(es: seq<Event>) {
    forall i :: 0 <= i < |es| ==> !es[i].kind.Discards() && !es[i].kind.MarkerRecorded?
  }

  lemma {:induction false} ApplyEventsGrows(env: Env, m: Machine, es: seq<Event>)
    requires News(es)
    ensures ExtendsOk(m, ApplyEvents(env, m, es))
  {
    if es != [] {
      var front, last := es[..|es| - 1], es[|es| - 1];
      ApplyEventsGrows(env, m, front);
      var before := ApplyEvents(env, m, front);
      if before.Ok? {
        ApplyEventGrows(env, before.value, last);
      }
    }
  }

  /** The same news has the same effect on both sides. */
  lemma {:induction false} ApplyEventsMirrors(ef: Env, eg: Env, f: Machine, g: Machine, es: seq<Event>,
                                              plan: seq<Entry>, base: int)
    requires Mirrors(f, g, plan, base) && SameEnv(ef, eg, f.manager.replay)
    requires News(es) && Recorded(f.manager.replay, ApplyEvents(eg, g, es), plan)
    ensures MirrorResults(ApplyEvents(ef, f, es), ApplyEvents(eg, g, es), plan, base, f.manager.replay)
    decreases |es|
  {
    if es != [] {
      var front, last := es[..|es| - 1], es[|es| - 1];
      var before := ApplyEvents(eg, g, front);
      if before.Ok? {
        ApplyEventGrows(eg, before.value, last);
      }
      ApplyEventsMirrors(ef, eg, f, g, front, plan, base);
      if before.Ok? {
        ApplyEventMirrors(ef, eg, ApplyEvents(ef, f, front).value, before.value, last, plan, base);
      }
    }
  }
}
