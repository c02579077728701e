/** The clock of the workflow: while a task is handled it stands still at the time at which that task was started, and
    every later rebuild reads the same time at the same place. */
module Clocks {
  import opened Base
  import opened Events
  import opened Histories
  import opened StateManagers
  import opened Engine
  import opened Windows
  import opened Protocol
  import opened Replay
  import opened Runs

  /** Every reading of the clock from entry `from` on gave this time. */
  predicate ReadAs(log: seq<LogEntry>, from: nat, time: Option<int>) {
    forall i :: from <= i < |log| && log[i].Answered? && log[i].request.Now? ==> log[i].answer == Time(time)
  }

  /** The clock stands still while code runs, and the code is told what it shows. */
  predicate StandsStill(m: Machine, m': Machine) {
    && m.log <= m'.log && m'.manager.localTime == m.manager.localTime
    && ReadAs(m'.log, |m.log|, m.manager.localTime)
  }

  lemma StillTransitive(a: Machine, b: Machine, c: Machine)
    requires StandsStill(a, b) && StandsStill(b, c)
    ensures StandsStill(a, c)
  {
    assert forall i :: 0 <= i < |b.log| ==> c.log[i] == b.log[i];
  }

  lemma PerformStill(env: Env, m: Machine, fiber: nat, r: Request)
    ensures
      var reply := Perform(env, m, r);
      StandsStill(m, Logged(reply.machine, Answered(fiber, r, reply.answer)))
  {
    hide ScheduleDecision, Register;
    PerformKeepsTime(env, m, r);
  }

  lemma PerformKeepsTime(env: Env, m: Machine, r: Request)
    ensures
      var reply := Perform(env, m, r);
      && reply.machine.log == m.log && reply.machine.manager.localTime == m.manager.localTime
      && (r.Now? ==> reply.answer == Time(m.manager.localTime))
  {
    forall manager: ManagerState, d
      ensures ScheduleDecision(manager, d).state.localTime == manager.localTime
    {
    }
    hide ScheduleDecision, Register;
  }

  /** Nothing is told and the clock is not touched. */
  lemma NothingTold(m: Machine, m': Machine)
    requires m'.log == m.log && m'.manager.localTime == m.manager.localTime
    ensures StandsStill(m, m')
  {
  }

  lemma ToldOther(m: Machine, m': Machine, e: LogEntry)
    requires m'.log == m.log + [e] && m'.manager == m.manager && (e.Answered? ==> !e.request.Now?)
    ensures StandsStill(m, m')
  {
  }

  lemma FinishKeepsTime(m: Machine, root: bool, r: Request)
    requires (r.Return? || r.Raise?) && Finish(m, root, r).Ok?
    ensures Finish(m, root, r).value.log == m.log
    ensures Finish(m, root, r).value.manager.localTime == m.manager.localTime
  {
  }

  lemma {:induction false} RunStill(env: Env, m: Machine, fiber: nat, root: bool, steps: nat)
    requires Run(env, m, fiber, root, steps).Ok?
    ensures StandsStill(m, Run(env, m, fiber, root, steps).value)
    decreases steps
  {
    hide Perform, Finish, StandsStill;
    var r := env.code(fiber, m.log);
    if r.Return? || r.Raise? {
      FinishKeepsTime(m, root, r);
      NothingTold(m, Finish(m, root, r).value);
    } else if MustPark(m, r) {
      NothingTold(m, Park(m, fiber, root, r.future));
    } else {
      var reply := Perform(env, m, r);
      var next := Logged(reply.machine, Answered(fiber, r, reply.answer));
      PerformStill(env, m, fiber, r);
      RunStill(env, next, fiber, root, steps - 1);
      StillTransitive(m, next, Run(env, next, fiber, root, steps - 1).value);
    }
  }

  lemma LaunchStill(env: Env, m: Machine, root: bool, e: LogEntry)
    requires Launch(env, m, root, e).Ok? && Starts(root, e, |m.fibers|)
    ensures StandsStill(m, Launch(env, m, root, e).value)
  {
    hide Run, StandsStill;
    var m1 := Logged(m.(fibers := m.fibers + [NotParked]), e);
    ToldOther(m, m1, e);
    RunStill(env, m1, |m.fibers|, root, env.budget);
    StillTransitive(m, m1, Launch(env, m, root, e).value);
  }

  lemma WakeStill(env: Env, m: Machine, f: nat, fiber: nat)
    requires f < |m.futures| && WakeFiber(env, m, f, fiber).Ok?
    ensures StandsStill(m, WakeFiber(env, m, f, fiber).value)
  {
    hide Run, StandsStill;
    if m.futures[f].status.Pending? {
      NothingTold(m, m);
    } else {
      var Parked(root, g) := m.fibers[fiber];
      var e := Answered(fiber, Wait(g), Observed(m.futures[g].status));
      var m1 := Logged(m.(fibers := m.fibers[fiber := NotParked]), e);
      ToldOther(m, m1, e);
      RunStill(env, m1, fiber, root, env.budget);
      StillTransitive(m, m1, WakeFiber(env, m, f, fiber).value);
    }
  }

  lemma StillClosed(env: Env)
    ensures Closed(env, StandsStill)
  {
    hide Launch, WakeFiber, StandsStill;
    forall m
      ensures StandsStill(m, m)
    {
      NothingTold(m, m);
    }
    forall a, b, c | StandsStill(a, b) && StandsStill(b, c)
      ensures StandsStill(a, c)
    {
      StillTransitive(a, b, c);
    }
    forall m: Machine, root, e | Starts(root, e, |m.fibers|) && Launch(env, m, root, e).Ok?
      ensures StandsStill(m, Launch(env, m, root, e).value)
    {
      LaunchStill(env, m, root, e);
    }
    forall m: Machine, f: nat, status | f < |m.futures|
      ensures StandsStill(m, WithStatus(m, f, status))
    {
      NothingTold(m, WithStatus(m, f, status));
    }
    forall m: Machine, f: nat, fiber: nat | f < |m.futures| && WakeFiber(env, m, f, fiber).Ok?
      ensures StandsStill(m, WakeFiber(env, m, f, fiber).value)
    {
      WakeStill(env, m, f, fiber);
    }
  }

  // ----- Events -----

  lemma AbsorbKeepsTime(m: ManagerState, e: Event)
    requires Absorb(m, e).Ok?
    ensures Absorb(m, e).value.localTime == m.localTime
  {
  }

  lemma EventStill(env: Env, m: Machine, e: Event)
    requires ApplyEvent(env, m, e).Ok?
    ensures StandsStill(m, ApplyEvent(env, m, e).value)
  {
    hide ApplyEvent, StandsStill, Absorb;
    StillClosed(env);
    ApplyEventClosed(env, m, e, StandsStill);
    AbsorbKeepsTime(m.manager, e);
    NothingTold(m, Absorbed(m, e));
    StillTransitive(m, Absorbed(m, e), ApplyEvent(env, m, e).value);
  }

  lemma {:induction false} EventsStill(env: Env, m: Machine, es: seq<Event>)
    requires ApplyEvents(env, m, es).Ok?
    ensures StandsStill(m, ApplyEvents(env, m, es).value)
  {
    hide ApplyEvent, StandsStill;
    if es == [] {
      NothingTold(m, m);
    } else {
      var before := ApplyEvents(env, m, es[..|es| - 1]).value;
      EventsStill(env, m, es[..|es| - 1]);
      EventStill(env, before, es[|es| - 1]);
      StillTransitive(m, before, ApplyEvents(env, m, es).value);
    }
  }

  /** In one round the clock stands at the start of the task. */
  lemma RoundStill(env: Env, prior: World, r: Round)
    requires ValidRound(r)
    ensures
      var m := ApplyWindow(env, Accepted(prior.machine), Collect(NewEvents(prior.history, r)));
      m.Ok? ==> prior.machine.log <= m.value.log && ReadAs(m.value.log, |prior.machine.log|, Some(r.time))
  {
    hide ApplyEvents;
    var w := Collect(NewEvents(prior.history, r));
    NewWindow(prior.history, r);
    var entered := Entered(Accepted(prior.machine), w);
    var loaded := ApplyEvents(env, entered, w.markers);
    if loaded.Ok? && ApplyEvents(env, loaded.value, w.events).Ok? {
      EventsStill(env, entered, w.markers);
      EventsStill(env, loaded.value, w.events);
      StillTransitive(entered, loaded.value, ApplyEvents(env, loaded.value, w.events).value);
    }
  }

  // ----- The theorem -----

  /** Whenever workers rebuild a workflow, each reading of the clock that the code made in the task of round `n` gives
      the time at which that task was started, also in the rebuilds for all later tasks. */
  lemma ClockStandsStill(code: Code, budget: nat, rounds: seq<Round>, n: nat)
    requires ValidRounds(rounds) && n < |rounds|
    requires KeptRun(START, code, budget, rounds).Ok? && ReplayableRun(START, code, budget, rounds[..|rounds| - 1])
    ensures StatelessRun(START, code, budget, rounds[..n]).Ok? && StatelessRun(START, code, budget, rounds[..n + 1]).Ok?
    ensures StatelessRun(START, code, budget, rounds).Ok?
    ensures
      var before := StatelessRun(START, code, budget, rounds[..n]).value.machine.log;
      var after := StatelessRun(START, code, budget, rounds[..n + 1]).value.machine.log;
      var now := StatelessRun(START, code, budget, rounds).value.machine.log;
      before <= after <= now && ReadAs(now[..|after|], |before|, Some(rounds[n].time))
  {
    hide *;
    AnswersAreStable(code, budget, rounds, n);
    AnswersAreStable(code, budget, rounds, n + 1);
    KeptLogs(code, budget, rounds, n);
    KeptLogs(code, budget, rounds, n + 1);
    KeptLogs(code, budget, rounds, |rounds|);
    assert rounds[..|rounds|] == rounds;
    KeptReads(code, budget, rounds, n);
    var now := StatelessRun(START, code, budget, rounds).value.machine.log;
    var after := StatelessRun(START, code, budget, rounds[..n + 1]).value.machine.log;
    assert now[..|after|] == after;
  }

  lemma KeptReads(code: Code, budget: nat, rounds: seq<Round>, n: nat)
    requires ValidRounds(rounds) && n < |rounds| && KeptRun(START, code, budget, rounds).Ok?
    ensures KeptRun(START, code, budget, rounds[..n]).Ok? && KeptRun(START, code, budget, rounds[..n + 1]).Ok?
    ensures
      var before := KeptRun(START, code, budget, rounds[..n]).value.machine.log;
      var after := KeptRun(START, code, budget, rounds[..n + 1]).value.machine.log;
      before <= after && ReadAs(after, |before|, Some(rounds[n].time))
  {
    hide *;
    KeptLogGrows(START, code, budget, rounds, n);
    KeptLogGrows(START, code, budget, rounds, n + 1);
    ValidPrefix(rounds, n + 1);
    FrontValid(rounds[..n + 1]);
    LastRound(START, code, budget, rounds[..n + 1]);
    assert rounds[..n + 1][..n] == rounds[..n];
    RoundStill(Env(code, rounds[n].oracle, budget), KeptRun(START, code, budget, rounds[..n]).value, rounds[n]);
  }

  /** A rebuilt worker has the log of the one that remembers. */
  lemma KeptLogs(code: Code, budget: nat, rounds: seq<Round>, n: nat)
    requires ValidRounds(rounds) && n <= |rounds| && rounds != []
    requires KeptRun(START, code, budget, rounds).Ok? && ReplayableRun(START, code, budget, rounds[..|rounds| - 1])
    ensures KeptRun(START, code, budget, rounds[..n]).Ok? && StatelessRun(START, code, budget, rounds[..n]).Ok?
    ensures
      StatelessRun(START, code, budget, rounds[..n]).value.machine.log
      == KeptRun(START, code, budget, rounds[..n]).value.machine.log
  {
    hide *;
    KeptLogGrows(START, code, budget, rounds, n);
    var part := rounds[..n];
    if n == 0 {
      NothingToFault(START, code, budget);
      NothingDone(START, code, budget);
    } else {
      ValidPrefix(rounds, n);
      ReplayablePrefix(START, code, budget, rounds[..|rounds| - 1], n - 1);
      assert rounds[..|rounds| - 1][..n - 1] == part[..|part| - 1];
      ReplayRefinesIncremental(code, budget, part);
      SameLogs(StatelessRun(START, code, budget, part), KeptRun(START, code, budget, part));
    }
  }
}
