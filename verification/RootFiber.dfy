/** The fiber that runs the workflow itself: once it has begun, it waits or the workflow is closing. */
module RootFiber {
  import opened Base
  import opened Events
  import opened Histories
  import opened StateManagers
  import opened Engine
  import opened Growth
  import opened Runs
  import opened Conservation

  predicate Began(m: Machine) {
    exists i :: 0 <= i < |m.log| && m.log[i].Began?
  }

  predicate RootParked(m: Machine) {
    exists fiber :: 0 <= fiber < |m.fibers| && m.fibers[fiber].Parked? && m.fibers[fiber].root
  }

  predicate RootOk(m: Machine) {
    && TerminalLast(m.manager.decisions)
    && (Began(m) ==> RootParked(m) || EndsTerminal(m.manager.decisions))
  }

  predicate KeepsRoot(m: Machine, m': Machine) { RootOk(m) ==> RootOk(m') }

  /** A closed decision list stays as it is. */
  lemma ClosedStaysClosed(m: Machine, m': Machine)
    requires Grows(m, m') && TerminalLast(m.manager.decisions)
    ensures TerminalLast(m'.manager.decisions)
    ensures EndsTerminal(m.manager.decisions) ==> EndsTerminal(m'.manager.decisions)
  {
    var n := |m.manager.decisions|;
    assert EndsTerminal(m.manager.decisions) ==> m'.manager.decisions[n - 1].decision.Terminal();
  }

  lemma PerformKeepsFibers(env: Env, m: Machine, r: Request)
    ensures Perform(env, m, r).machine.fibers == m.fibers && Perform(env, m, r).machine.log == m.log
  {
    hide ScheduleDecision, Register;
  }

  /** A running fiber leaves the others alone and starts no workflow. */
  lemma {:induction false} RunFrame(env: Env, m: Machine, fiber: nat, root: bool, steps: nat)
    requires Run(env, m, fiber, root, steps).Ok? && fiber < |m.fibers|
    ensures
      var m' := Run(env, m, fiber, root, steps).value;
      && |m'.fibers| == |m.fibers|
      && (forall x :: 0 <= x < |m.fibers| && x != fiber ==> m'.fibers[x] == m.fibers[x])
      && m.log <= m'.log && (forall i :: |m.log| <= i < |m'.log| ==> m'.log[i].Answered?)
    decreases steps
  {
    hide Perform, ScheduleDecision, Register;
    var r := env.code(fiber, m.log);
    if !r.Return? && !r.Raise? && !MustPark(m, r) {
      PerformKeepsFibers(env, m, r);
      var reply := Perform(env, m, r);
      RunFrame(env, Logged(reply.machine, Answered(fiber, r, reply.answer)), fiber, root, steps - 1);
    }
  }

  /** When the root fiber stops, it is parked or the workflow is closing. */
  lemma {:induction false} RootStops(env: Env, m: Machine, fiber: nat, steps: nat)
    requires Run(env, m, fiber, true, steps).Ok? && fiber < |m.fibers|
    ensures
      var m' := Run(env, m, fiber, true, steps).value;
      RootParked(m') || EndsTerminal(m'.manager.decisions)
    decreases steps
  {
    hide Perform, ScheduleDecision, Register, RootParked;
    var r := env.code(fiber, m.log);
    if r.Return? || r.Raise? {
      FinishCloses(m, r);
    } else if MustPark(m, r) {
      ParkParks(m, fiber, r.future);
    } else {
      PerformKeepsFibers(env, m, r);
      var reply := Perform(env, m, r);
      RootStops(env, Logged(reply.machine, Answered(fiber, r, reply.answer)), fiber, steps - 1);
    }
  }

  lemma FinishCloses(m: Machine, r: Request)
    requires (r.Return? || r.Raise?) && Finish(m, true, r).Ok?
    ensures EndsTerminal(Finish(m, true, r).value.manager.decisions)
  {
  }

  lemma ParkParks(m: Machine, fiber: nat, f: nat)
    requires fiber < |m.fibers| && f < |m.futures|
    ensures RootParked(Park(m, fiber, true, f))
  {
    assert Park(m, fiber, true, f).fibers[fiber] == Parked(true, f);
  }

  lemma LaunchKeepsRoot(env: Env, m: Machine, root: bool, e: LogEntry)
    requires Launch(env, m, root, e).Ok? && Starts(root, e, |m.fibers|)
    ensures KeepsRoot(m, Launch(env, m, root, e).value)
  {
    var m1, fiber := Logged(m.(fibers := m.fibers + [NotParked]), e), |m.fibers|;
    var m' := Launch(env, m, root, e).value;
    if RootOk(m) {
      hide Run, Keeps, AllAnswerable, OnlyRequests;
      RunGrows(env, m1, fiber, root, env.budget);
      ClosedStaysClosed(m1, m');
      if root {
        RootStops(env, m1, fiber, env.budget);
      } else {
        RunFrame(env, m1, fiber, root, env.budget);
        NoNewRoot(m, m1, m', fiber);
      }
    }
  }

  lemma WakeKeepsRoot(env: Env, m: Machine, f: nat, fiber: nat)
    requires f < |m.futures| && WakeFiber(env, m, f, fiber).Ok?
    ensures KeepsRoot(m, WakeFiber(env, m, f, fiber).value)
  {
    var m' := WakeFiber(env, m, f, fiber).value;
    if RootOk(m) && !m.futures[f].status.Pending? {
      var Parked(root, g) := m.fibers[fiber];
      var m1 := Logged(
        m.(fibers := m.fibers[fiber := NotParked]), Answered(fiber, Wait(g), Observed(m.futures[g].status)));
      hide Run, Keeps, AllAnswerable, OnlyRequests;
      RunGrows(env, m1, fiber, root, env.budget);
      ClosedStaysClosed(m1, m');
      if root {
        RootStops(env, m1, fiber, env.budget);
      } else {
        RunFrame(env, m1, fiber, root, env.budget);
        NoNewRoot(m, m1, m', fiber);
      }
    }
  }

  /** Another fiber's run neither begins a workflow nor takes the root from where it is parked. */
  lemma NoNewRoot(m: Machine, m1: Machine, m': Machine, fiber: nat)
    requires |m.fibers| <= |m1.fibers| == |m'.fibers| && fiber < |m1.fibers|
    requires forall x :: 0 <= x < |m.fibers| && x != fiber ==> m1.fibers[x] == m.fibers[x]
    requires forall x :: 0 <= x < |m1.fibers| && x != fiber ==> m'.fibers[x] == m1.fibers[x]
    requires fiber < |m.fibers| ==> m.fibers[fiber].Parked? ==> !m.fibers[fiber].root
    requires |m1.log| == |m.log| + 1 && m.log <= m1.log <= m'.log && !m1.log[|m.log|].Began?
    requires forall i :: |m1.log| <= i < |m'.log| ==> m'.log[i].Answered?
    ensures Began(m') ==> Began(m)
    ensures RootParked(m) ==> RootParked(m')
  {
    if RootParked(m) {
      var x :| 0 <= x < |m.fibers| && m.fibers[x].Parked? && m.fibers[x].root;
      assert m'.fibers[x] == m.fibers[x];
    }
    if Began(m') {
      var i :| 0 <= i < |m'.log| && m'.log[i].Began?;
      assert i < |m.log| ==> m.log[i] == m'.log[i];
      assert m1.log[|m.log|] == m'.log[|m.log|];
    }
  }

  lemma RootClosed(env: Env)
    ensures Closed(env, KeepsRoot)
  {
    hide Launch, WakeFiber, RootOk;
    forall m: Machine, root, e | Starts(root, e, |m.fibers|) && Launch(env, m, root, e).Ok?
      ensures KeepsRoot(m, Launch(env, m, root, e).value)
    {
      LaunchKeepsRoot(env, m, root, e);
    }
    forall m: Machine, f: nat, status | f < |m.futures|
      ensures KeepsRoot(m, WithStatus(m, f, status))
    {
      StatusKeepsRoot(m, f, status);
    }
    forall m: Machine, f: nat, fiber: nat | f < |m.futures| && WakeFiber(env, m, f, fiber).Ok?
      ensures KeepsRoot(m, WakeFiber(env, m, f, fiber).value)
    {
      WakeKeepsRoot(env, m, f, fiber);
    }
  }

  lemma StatusKeepsRoot(m: Machine, f: nat, status: Status)
    requires f < |m.futures|
    ensures KeepsRoot(m, WithStatus(m, f, status))
  {
  }

  /** No event takes the terminal decision out of the list. */
  lemma AbsorbKeepsRoot(t: Machine, m: Machine, e: Event)
    requires SameButWindow(t, m) && Absorb(m.manager, e).Ok? && RootOk(t)
    ensures RootOk(Absorbed(m, e))
  {
    var before, after := t.manager.decisions, Absorbed(m, e).manager.decisions;
    AbsorbAccounts(m.manager, e);
    if e.kind.Discards() {
      EchoedGoesOn(e, before[0]);
      assert after == before[1..];
    } else {
      assert before[0..] == before;
    }
    hide Absorb;
    assert Absorbed(m, e).fibers == t.fibers && Absorbed(m, e).log == t.log;
  }

  lemma {:induction false} RootOkAlways(env: Env, trace: seq<Machine>, es: seq<Event>, k: nat)
    requires Stepwise(env, trace, es) && k <= |es|
    ensures RootOk(trace[k])
  {
    hide ApplyEvent, RootOk, SameButWindow, Absorb;
    if k == 0 {
      FreshRoot();
    } else {
      RootOkAlways(env, trace, es, k - 1);
      assert StepOf(env, trace, es, k - 1);
      var m :| SameButWindow(trace[k - 1], m) && ApplyEvent(env, m, es[k - 1]) == Ok(trace[k]);
      RootClosed(env);
      ApplyEventClosed(env, m, es[k - 1], KeepsRoot);
      AbsorbKeepsRoot(trace[k - 1], m, es[k - 1]);
    }
  }

  lemma FreshRoot()
    ensures RootOk(FRESH_MACHINE)
  {
  }

  /** Over every run of any code on any history: once the workflow has begun and its root fiber waits for nothing, what
      the run returns ends with the decision that completes or fails the workflow; and it is the only one ever
      scheduled. */
  lemma RootEndsWorkflow(env: Env, history: seq<Event>)
    requires Execute(env, history).Ok?
    requires Began(Execute(env, history).value) && !RootParked(Execute(env, history).value)
    ensures EndsTerminal(Execute(env, history).value.manager.decisions)
    ensures
      var issued := IssuedByWindows(env, FRESH_MACHINE, Split(history));
      EndsTerminal(issued) && TerminalLast(issued)
  {
    hide ApplyWindows, Split, Applied, Trace, IssuedByWindows, Stepwise;
    var trace, es := Trace(env, Split(history)), Applied(Split(history));
    RunStepwise(env, Split(history));
    RootOkAlways(env, trace, es, |es|);
    TerminalOrderIsLast(env, history);
    assert trace[|es|].manager.decisions == Execute(env, history).value.manager.decisions;
    assert trace[|es|].log == Execute(env, history).value.log;
    assert trace[|es|].fibers == Execute(env, history).value.fibers;
  }
}
