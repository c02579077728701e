/** Runs of the protocol in which deterministic code cannot be replayed: a textual activity id, and a timer cancellation
    that the server refuses. Both tasks are completed; the next one fails, and so does every later attempt. */
module Shortfalls {
  import opened Base
  import opened Decisions
  import opened Events
  import opened Histories
  import opened StateManagers
  import opened Engine
  import opened Protocol
  import opened Replay

  /** Schedules one activity under an id that is not a number, and waits for it. */
  const TEXT_ID_CODE: Code := (fiber: nat, log: seq<LogEntry>) =>
    if |log| == 1 then ExecuteActivity(Some(StrId("first")), "Activity", Null) else Wait(0)

  /** Starts a timer, cancels it and waits for it. */
  const CANCEL_CODE: Code := (fiber: nat, log: seq<LogEntry>) =>
    if |log| == 1 then SetTimer(5, None)
    else if |log| == 2 then CancelTimerById(Some(IntId(4)))
    else Wait(0)

  /** The task that starts the workflow; the server refuses the cancellation that gets event id 5, if there is one. */
  function FirstRound(): Round {
    Round([WorkflowExecutionStarted(Null)], 0, NullOracle(), {5}, "TIMER_ID_UNKNOWN", 0)
  }

  /** A later task without any news. */
  function QuietRound(): Round {
    Round([], 1, NullOracle(), {}, "", 0)
  }

  function FirstEnv(code: Code): Env { Env(code, NullOracle(), 3) }

  /** The executor in its first window, with the start of the workflow on record. */
  function Starting(): Machine {
    FRESH_MACHINE.(manager :=
      FRESH_MANAGER.(tracker := map[1 := Started], localTime := Some(0), lastEventId := Some(3)))
  }

  lemma FirstNews()
    ensures NewEvents([], FirstRound()) == [Event(1, WorkflowExecutionStarted(Null)), Event(2, DecisionTaskStarted(0))]
  {
  }

  lemma FirstWindow()
    ensures
      Collect(NewEvents([], FirstRound()))
      == WindowState(false, Some(0), Some(3), [Event(1, WorkflowExecutionStarted(Null))], [])
  {
    hide NewEvents, FirstRound;
    FirstNews();
    var e, started := Event(1, WorkflowExecutionStarted(Null)), Event(2, DecisionTaskStarted(0));
    var none: seq<Event> := [];
    CollectSnoc(none, e);
    CollectSnoc([e], started);
    assert none + [e] == [e] && [e] + [started] == [e, started];
  }

  /** In the first window the code runs once. */
  lemma FirstWindowLaunches(code: Code)
    ensures
      ApplyWindow(FirstEnv(code), Accepted(FRESH_MACHINE), Collect(NewEvents([], FirstRound())))
      == Launch(FirstEnv(code), Starting(), true, Began(0, Null))
  {
    hide Launch;
    FirstWindow();
    var env, w := FirstEnv(code), Collect(NewEvents([], FirstRound()));
    var e := Event(1, WorkflowExecutionStarted(Null));
    var entered := Entered(Accepted(FRESH_MACHINE), w);
    assert ApplyEvents(env, entered, w.markers) == Ok(entered);
    assert [e][..0] == [];
    assert ApplyEvents(env, entered, [e]) == ApplyEvent(env, entered, e);
    StartLaunches(code, entered, e);
  }

  lemma StartLaunches(code: Code, m: Machine, e: Event)
    requires m == Starting().(manager := Starting().manager.(tracker := map[]))
    requires e == Event(1, WorkflowExecutionStarted(Null))
    ensures
      ApplyEvent(FirstEnv(code), m, e)
      == Launch(FirstEnv(code), Starting(), true, Began(0, Null))
  {
    hide Launch;
    var env := FirstEnv(code);
    var rs := HandlersAt(m.handlers, WORKFLOW_TARGET);
    assert rs == [Registration(OnStarted, Begin)] && rs[..0] == [];
    assert Select(rs, OnStarted) == Select(rs[..0], OnStarted) + [Begin];
    var hs := [Begin];
    assert Select(rs, OnStarted) == hs && hs[..0] == [];
    assert CallAll(env, Starting(), hs, Payload("", Null)) == Call(env, Starting(), Begin, Payload("", Null));
  }

  /** What the first task decides. */
  lemma TextIdFirstTask()
    ensures
      var r := Launch(FirstEnv(TEXT_ID_CODE), Starting(), true, Began(0, Null));
      r.Ok? && r.value.manager.decisions == [Entry(4, ScheduleActivity(Some(StrId("first")), "Activity", Null))]
  {
    hide Perform, Run, Park;
    var env := FirstEnv(TEXT_ID_CODE);
    var m := Logged(Starting().(fibers := [NotParked]), Began(0, Null));
    var r := ExecuteActivity(Some(StrId("first")), "Activity", Null);
    assert m == Logged(Starting().(fibers := Starting().fibers + [NotParked]), Began(0, Null)) && |m.log| == 1;
    RunUnfolds(env, m, 0, true, 3);
    ActivityAnswer(env, m);
    var next := Answering(env, m, r);
    assert env.code(0, next.log) == Wait(0) && MustPark(next, Wait(0));
    RunUnfolds(env, next, 0, true, 2);
    ParkIssuesNothing(next, 0, true, 0);
  }

  lemma ActivityAnswer(env: Env, m: Machine)
    requires m == Logged(Starting().(fibers := [NotParked]), Began(0, Null))
    ensures
      var m1 := Answering(env, m, ExecuteActivity(Some(StrId("first")), "Activity", Null));
      && m1.manager.decisions == [Entry(4, ScheduleActivity(Some(StrId("first")), "Activity", Null))]
      && |m1.log| == 2 && |m1.futures| == 1 && m1.futures[0].status == Pending
  {
  }

  lemma ParkIssuesNothing(m: Machine, fiber: nat, root: bool, f: nat)
    requires f < |m.futures|
    ensures Park(m, fiber, root, f).manager == m.manager
  {
  }

  function Answering(env: Env, m: Machine, r: Request): Machine {
    Logged(Perform(env, m, r).machine, Answered(0, r, Perform(env, m, r).answer))
  }

  lemma TimerAnswer(env: Env, m: Machine)
    requires m == Logged(Starting().(fibers := [NotParked]), Began(0, Null))
    ensures
      var m1 := Answering(env, m, SetTimer(5, None));
      && m1.manager.decisions == [Entry(4, StartTimer(5, Some(IntId(4))))]
      && m1.manager.lastEventId == Some(4) && m1.manager.markerIds == {}
      && |m1.log| == 2 && |m1.futures| == 1 && m1.futures[0].status == Pending
  {
  }

  lemma CancelAnswer(env: Env, m: Machine)
    requires m.manager.decisions == [Entry(4, StartTimer(5, Some(IntId(4))))]
    requires m.manager.lastEventId == Some(4) && m.manager.markerIds == {} && |m.log| == 2
    ensures
      var m1 := Answering(env, m, CancelTimerById(Some(IntId(4))));
      && m1.manager.decisions == m.manager.decisions + [Entry(5, CancelTimer(Some(IntId(4))))]
      && |m1.log| == 3 && m1.futures == m.futures
  {
  }

  lemma CancelFirstTask()
    ensures
      var r := Launch(FirstEnv(CANCEL_CODE), Starting(), true, Began(0, Null));
      && r.Ok?
      && r.value.manager.decisions
         == [Entry(4, StartTimer(5, Some(IntId(4)))), Entry(5, CancelTimer(Some(IntId(4))))]
  {
    hide Perform, Starting, ScheduleDecision;
    var env := FirstEnv(CANCEL_CODE);
    var m := Logged(Starting().(fibers := [NotParked]), Began(0, Null));
    assert m == Logged(Starting().(fibers := Starting().fibers + [NotParked]), Began(0, Null)) && |m.log| == 1 by {
      NothingYet();
    }
    RunUnfolds(env, m, 0, true, 3);
    TimerAnswer(env, m);
    var m1 := Answering(env, m, SetTimer(5, None));
    RunUnfolds(env, m1, 0, true, 2);
    CancelAnswer(env, m1);
    var m2 := Answering(env, m1, CancelTimerById(Some(IntId(4))));
    assert MustPark(m2, Wait(0));
    RunUnfolds(env, m2, 0, true, 1);
  }

  lemma NothingYet()
    ensures Starting().fibers == [] && Starting().log == []
  {
  }

  lemma FirstTask(code: Code)
    requires Launch(FirstEnv(code), Starting(), true, Began(0, Null)).Ok?
    ensures KeptRun(START, code, 3, [FirstRound()]).Ok?
    ensures
      KeptRun(START, code, 3, [FirstRound()]).value.issued
      == Launch(FirstEnv(code), Starting(), true, Began(0, Null)).value.manager.decisions
  {
    hide Launch, ApplyWindow, Collect, Segment, NewEvents;
    var rounds := [FirstRound()];
    FirstWindowLaunches(code);
    assert rounds[..0] == [];
    assert KeptRun(START, code, 3, rounds[..0]) == Ok(World([], FRESH_MACHINE, []));
  }

  /** A task without news is completed without decisions. */
  lemma QuietTask(code: Code, budget: nat, rounds: seq<Round>)
    requires KeptRun(START, code, budget, rounds).Ok? && NoTerminal(KeptRun(START, code, budget, rounds).value.issued)
    ensures KeptRun(START, code, budget, rounds + [QuietRound()]).Ok?
  {
    hide ApplyWindow, NewEvents, Collect, Segment, NoTerminal;
    assert (rounds + [QuietRound()])[..|rounds|] == rounds;
    var prior := KeptRun(START, code, budget, rounds).value;
    QuietWindow(Env(code, NullOracle(), budget), Accepted(prior.machine), prior.history);
  }

  lemma QuietWindow(env: Env, m: Machine, h: seq<Event>)
    ensures ApplyWindow(env, m, Collect(NewEvents(h, QuietRound()))).Ok?
  {
    var started := Event(|h| + 1, DecisionTaskStarted(1));
    var none: seq<Event> := [];
    assert NewEvents(h, QuietRound()) == none + [started];
    CollectSnoc(none, started);
  }

  /** The replay of a round that cannot be replayed, in the next task. */
  lemma NextTaskFails(code: Code)
    requires KeptRun(START, code, 3, [FirstRound()]).Ok?
    requires NoTerminal(KeptRun(START, code, 3, [FirstRound()]).value.issued)
    requires FirstFault(KeptRun(START, code, 3, [FirstRound()]).value.issued, FirstRound()).Some?
    ensures KeptRun(START, code, 3, [FirstRound(), QuietRound()]).Ok?
    ensures
      StatelessRun(START, code, 3, [FirstRound(), QuietRound()])
      == Err(FirstFault(KeptRun(START, code, 3, [FirstRound()]).value.issued, FirstRound()).value)
  {
    hide *;
    var first := [FirstRound()];
    var rounds := first + [QuietRound()];
    assert rounds == [FirstRound(), QuietRound()] && rounds[..1] == first;
    BothValid();
    NoFault(KeptRun(START, code, 3, first).value.issued, FirstRound());
    LastReplayable(START, code, 3, first);
    NothingToFault(code, 3, first[..0]);
    QuietTask(code, 3, first);
    ReplayRefinesIncremental(code, 3, rounds);
  }

  lemma BothValid()
    ensures ValidRounds([FirstRound(), QuietRound()])
  {
  }

  lemma NothingToFault(code: Code, budget: nat, rounds: seq<Round>)
    requires rounds == []
    ensures RunFault(START, code, budget, rounds).None?
  {
  }

  /** The determinism check accuses deterministic code: the task that schedules an activity under a textual id is
      completed, and the next task raises the determinism error. */
  lemma TextActivityIdAlarms()
    ensures KeptRun(START, TEXT_ID_CODE, 3, [FirstRound(), QuietRound()]).Ok?
    ensures StatelessRun(START, TEXT_ID_CODE, 3, [FirstRound(), QuietRound()]) == Err(NonDeterministicWorkflow)
  {
    hide KeptRun, StatelessRun, Launch;
    TextIdFirstTask();
    FirstTask(TEXT_ID_CODE);
    var es := KeptRun(START, TEXT_ID_CODE, 3, [FirstRound()]).value.issued;
    assert es[..0] == [] && FirstFault(es[..0], FirstRound()).None?;
    NextTaskFails(TEXT_ID_CODE);
  }

  /** A refused timer cancellation: the task is completed, and the next one calls a method that does not exist. */
  lemma RefusedCancellationRaises()
    ensures KeptRun(START, CANCEL_CODE, 3, [FirstRound(), QuietRound()]).Ok?
    ensures StatelessRun(START, CANCEL_CODE, 3, [FirstRound(), QuietRound()]) == Err(NoSuchMethod)
  {
    hide KeptRun, StatelessRun, Launch;
    CancelFirstTask();
    FirstTask(CANCEL_CODE);
    var es := KeptRun(START, CANCEL_CODE, 3, [FirstRound()]).value.issued;
    assert es[..1][..0] == [] && FirstFault(es[..1][..0], FirstRound()).None?;
    assert FirstFault(es[..1], FirstRound()).None?;
    NextTaskFails(CANCEL_CODE);
  }
}
