/** Every future has a decision behind it: it was created together with the decision whose outcome it waits for, and a
    cancellation through it quotes the identifier under which that decision was issued. */
module Futures {
  import opened Base
  import opened Decisions
  import opened Events
  import opened Histories
  import opened StateManagers
  import opened Engine
  import opened Growth
  import opened Runs

  /** The future waits for the outcome of this decision and would cancel it by its own identifier. */
  predicate MadeBy(f: Future, e: Entry) {
    && f.target.id == e.id
    && match e.decision
       case ScheduleActivity(Some(id), _, _) => f.target.kind == Activity && f.cancelationId == Some(id)
       case StartChildWorkflow(Some(id), _, _) => f.target.kind == ChildWorkflow && f.cancelationId == Some(id)
       case StartTimer(_, Some(id)) => f.target.kind == Timer && f.cancelationId == Some(id)
       case _ => false
  }

  /** Among these decisions is the one that made the future. */
  predicate Made(f: Future, es: seq<Entry>, from: nat) {
    exists i :: from <= i < |es| && MadeBy(f, es[i])
  }

  /** Futures are only added, and keep their targets and what they quote. */
  predicate OldOnesKept(m: Machine, m': Machine) {
    && |m.futures| <= |m'.futures|
    && forall j :: 0 <= j < |m.futures| ==>
         m'.futures[j].target == m.futures[j].target && m'.futures[j].cancelationId == m.futures[j].cancelationId
  }

  /** Futures stay what they are, and new ones come with new decisions. */
  predicate Backed(m: Machine, m': Machine) {
    && m.manager.decisions <= m'.manager.decisions
    && OldOnesKept(m, m')
    && (forall j :: |m.futures| <= j < |m'.futures| ==>
          Made(m'.futures[j], m'.manager.decisions, |m.manager.decisions|))
  }

  /** The decisions that made a future stay where they are while others are added. */
  lemma MadeLater(f: Future, f': Future, es: seq<Entry>, es': seq<Entry>, from: nat, earlier: nat)
    requires Made(f, es, from) && es <= es' && earlier <= from
    requires f'.target == f.target && f'.cancelationId == f.cancelationId
    ensures Made(f', es', earlier)
  {
    var i :| from <= i < |es| && MadeBy(f, es[i]);
    assert MadeBy(f', es'[i]);
  }

  lemma BackedTransitive(a: Machine, b: Machine, c: Machine)
    requires Backed(a, b) && Backed(b, c)
    ensures Backed(a, c)
  {
    hide Made;
    forall j | |a.futures| <= j < |c.futures|
      ensures Made(c.futures[j], c.manager.decisions, |a.manager.decisions|)
    {
      if j < |b.futures| {
        MadeLater(b.futures[j], c.futures[j], b.manager.decisions, c.manager.decisions, |a.manager.decisions|,
                  |a.manager.decisions|);
      } else {
        MadeLater(c.futures[j], c.futures[j], c.manager.decisions, c.manager.decisions, |b.manager.decisions|,
                  |a.manager.decisions|);
      }
    }
  }

  /** No future is created, and decisions are only added. */
  lemma NothingMade(m: Machine, m': Machine)
    requires m.manager.decisions <= m'.manager.decisions && |m'.futures| == |m.futures|
    requires
      forall j :: 0 <= j < |m.futures| ==>
        m'.futures[j].target == m.futures[j].target && m'.futures[j].cancelationId == m.futures[j].cancelationId
    ensures Backed(m, m')
  {
  }

  lemma TrackedBacked(m: Machine, t: Tracked)
    requires t.decision.ScheduleActivity? || t.decision.StartChildWorkflow? || t.decision.StartTimer?
    ensures Backed(m, StartTracked(m, t.decision, t.settled, t.broken).machine)
  {
    hide Register, NextFreeId, Keeps, OnlyRequests, AllAnswerable;
    var m' := StartTracked(m, t.decision, t.settled, t.broken).machine;
    if |m'.futures| > |m.futures| {
      assert MadeBy(m'.futures[|m.futures|], m'.manager.decisions[|m.manager.decisions|]);
    }
  }

  lemma PerformBacked(env: Env, m: Machine, fiber: nat, r: Request)
    ensures
      var reply := Perform(env, m, r);
      Backed(m, Logged(reply.machine, Answered(fiber, r, reply.answer)))
  {
    var reply := Perform(env, m, r);
    if StartsTracked(r) {
      TrackedBacked(m, TrackedFor(r));
    } else {
      assert Extends(m, reply.machine);
      OthersMakeNothing(env, m, r);
      hide Perform, Keeps, AllAnswerable;
      DecisionsOnlyGrow(m, reply.machine);
      NothingMade(m, Logged(reply.machine, Answered(fiber, r, reply.answer)));
    }
  }

  lemma DecisionsOnlyGrow(m: Machine, m': Machine)
    requires Extends(m, m')
    ensures m.manager.decisions <= m'.manager.decisions
  {
  }

  lemma OthersMakeNothing(env: Env, m: Machine, r: Request)
    requires !StartsTracked(r)
    ensures
      var m' := Perform(env, m, r).machine;
      && |m'.futures| == |m.futures|
      && forall j :: 0 <= j < |m.futures| ==>
           m'.futures[j].target == m.futures[j].target && m'.futures[j].cancelationId == m.futures[j].cancelationId
  {
    hide ScheduleDecision, Register;
  }

  lemma {:induction false} RunBacked(env: Env, m: Machine, fiber: nat, root: bool, steps: nat)
    requires Run(env, m, fiber, root, steps).Ok?
    ensures Backed(m, Run(env, m, fiber, root, steps).value)
    decreases steps
  {
    hide Perform, Finish, Backed, Keeps, AllAnswerable;
    var r := env.code(fiber, m.log);
    if r.Return? || r.Raise? {
      FinishBacked(m, root, r);
    } else if MustPark(m, r) {
      NothingMade(m, Park(m, fiber, root, r.future));
    } else {
      var reply := Perform(env, m, r);
      var next := Logged(reply.machine, Answered(fiber, r, reply.answer));
      PerformBacked(env, m, fiber, r);
      RunBacked(env, next, fiber, root, steps - 1);
      BackedTransitive(m, next, Run(env, next, fiber, root, steps - 1).value);
    }
  }

  lemma FinishBacked(m: Machine, root: bool, r: Request)
    requires (r.Return? || r.Raise?) && Finish(m, root, r).Ok?
    ensures Backed(m, Finish(m, root, r).value)
  {
    FinishGrows(m, root, r);
    FinishMakesNothing(m, root, r);
    hide Finish, Keeps, AllAnswerable;
    DecisionsOnlyGrow(m, Finish(m, root, r).value);
    NothingMade(m, Finish(m, root, r).value);
  }

  lemma FinishMakesNothing(m: Machine, root: bool, r: Request)
    requires (r.Return? || r.Raise?) && Finish(m, root, r).Ok?
    ensures Finish(m, root, r).value.futures == m.futures
  {
    hide ScheduleDecision;
  }

  lemma BackedClosed(env: Env)
    ensures Closed(env, Backed)
  {
    hide Run, Backed;
    forall m
      ensures Backed(m, m)
    {
      NothingMade(m, m);
    }
    forall a, b, c | Backed(a, b) && Backed(b, c)
      ensures Backed(a, c)
    {
      BackedTransitive(a, b, c);
    }
    forall m: Machine, root, e | Starts(root, e, |m.fibers|) && Launch(env, m, root, e).Ok?
      ensures Backed(m, Launch(env, m, root, e).value)
    {
      var m1 := Logged(m.(fibers := m.fibers + [NotParked]), e);
      NothingMade(m, m1);
      RunBacked(env, m1, |m.fibers|, root, env.budget);
    }
    forall m: Machine, f: nat, status | f < |m.futures|
      ensures Backed(m, WithStatus(m, f, status))
    {
      NothingMade(m, WithStatus(m, f, status));
    }
    forall m: Machine, f: nat, fiber: nat | f < |m.futures| && WakeFiber(env, m, f, fiber).Ok?
      ensures Backed(m, WakeFiber(env, m, f, fiber).value)
    {
      WakeBacked(env, m, f, fiber);
    }
  }

  lemma WakeBacked(env: Env, m: Machine, f: nat, fiber: nat)
    requires f < |m.futures| && WakeFiber(env, m, f, fiber).Ok?
    ensures Backed(m, WakeFiber(env, m, f, fiber).value)
  {
    hide Run, Backed;
    if m.futures[f].status.Pending? {
      NothingMade(m, m);
    } else {
      var Parked(root, g) := m.fibers[fiber];
      var e := Answered(fiber, Wait(g), Observed(m.futures[g].status));
      var m1 := Logged(m.(fibers := m.fibers[fiber := NotParked]), e);
      NothingMade(m, m1);
      RunBacked(env, m1, fiber, root, env.budget);
      BackedTransitive(m, m1, WakeFiber(env, m, f, fiber).value);
    }
  }

  // ----- Runs -----

  /** The future was made by a decision that stood in the list after one of the first `k` events. */
  ghost predicate MadeBefore(f: Future, trace: seq<Machine>, k: nat)
    requires k < |trace|
  {
    exists q: nat :: q <= k && Made(f, trace[q].manager.decisions, 0)
  }

  lemma {:induction false} TraceBacked(env: Env, trace: seq<Machine>, es: seq<Event>, k: nat, j: nat)
    requires Stepwise(env, trace, es) && k <= |es| && |trace| == |es| + 1 && j < |trace[k].futures|
    ensures MadeBefore(trace[k].futures[j], trace, k)
  {
    hide ApplyEvent, Made, Stepwise;
    if k == 0 {
      NoFutures(env, trace, es);
    } else {
      StepBacked(env, trace, es, k - 1);
      if j < |trace[k - 1].futures| {
        TraceBacked(env, trace, es, k - 1, j);
        var q: nat :| q <= k - 1 && Made(trace[k - 1].futures[j], trace[q].manager.decisions, 0);
        var es' := trace[q].manager.decisions;
        MadeLater(trace[k - 1].futures[j], trace[k].futures[j], es', es', 0, 0);
      } else {
        assert Made(trace[k].futures[j], trace[k].manager.decisions, 0);
      }
    }
  }

  lemma NoFutures(env: Env, trace: seq<Machine>, es: seq<Event>)
    requires Stepwise(env, trace, es)
    ensures trace[0].futures == []
  {
  }

  predicate NewOnesMade(m: Machine, m': Machine) {
    forall j :: |m.futures| <= j < |m'.futures| ==> Made(m'.futures[j], m'.manager.decisions, 0)
  }

  lemma StepBacked(env: Env, trace: seq<Machine>, es: seq<Event>, k: nat)
    requires Stepwise(env, trace, es) && k < |es| && |trace| == |es| + 1
    ensures OldOnesKept(trace[k], trace[k + 1]) && NewOnesMade(trace[k], trace[k + 1])
  {
    hide ApplyEvent, Absorb;
    assert StepOf(env, trace, es, k);
    var m :| SameButWindow(trace[k], m) && ApplyEvent(env, m, es[k]) == Ok(trace[k + 1]);
    BackedClosed(env);
    ApplyEventClosed(env, m, es[k], Backed);
  }

  /** Over every run of any code on any history, each future was made together with a decision that the code scheduled:
      its target is that decision's, and what it quotes to cancel is that decision's own identifier. */
  lemma FuturesQuoteTheirDecisions(env: Env, h: seq<Event>, k: nat, j: nat)
    requires Execute(env, h).Ok? && k <= |Applied(Split(h))| && j < |Trace(env, Split(h))[k].futures|
    ensures MadeBefore(Trace(env, Split(h))[k].futures[j], Trace(env, Split(h)), k)
  {
    hide ApplyWindows, Split, Applied, Trace, Stepwise, MadeBefore;
    RunStepwise(env, Split(h));
    TraceBacked(env, Trace(env, Split(h)), Applied(Split(h)), k, j);
  }
}
