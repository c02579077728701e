/** The decision-task protocol: a server that grows a history, workers that keep nothing between tasks, and the ideal
    worker that would keep its executor and read only the newest window. */
module Protocol {
  import opened Base
  import opened Decisions
  import opened Events
  import opened Histories
  import opened Engine
  import Decimal

  /** One decision task that was completed: what happened since the last one, including failed and timed-out attempts,
      the start time, the values that live side effects draw, the cancellations that the server refuses, and how many
      cancel requests arrive right after the commands. */
  datatype Round = Round(
    noise: seq<Kind>,
    time: int,
    oracle: Option<int> -> Value,
    refused: set<int>,
    cause: string,
    cancels: nat)

  /** An oracle for replays, which draw nothing. */
  function NullOracle(): Option<int> -> Value { _ => Null }

  /** What may happen between two completed decision tasks: anything except completions and echoes of commands. */
  predicate External(k: Kind) {
    match k
    case ActivityTaskScheduled(_, _, _, _) => false
    case ActivityTaskCancelRequested => false
    case RequestCancelActivityTaskFailed(_) => false
    case TimerStarted => false
    case TimerCanceled => false
    case CancelTimerFailed(_) => false
    case MarkerRecorded(_, _) => false
    case StartChildWorkflowExecutionInitiated => false
    case DecisionTaskCompleted => false
    case _ => true
  }

  /** Cancel requests at the very front belong to `cancels` of the round before. */
  predicate ValidRound(r: Round) {
    (forall i :: 0 <= i < |r.noise| ==> External(r.noise[i])) && (r.noise != [] ==> OpensWindow(r.noise[0]))
  }

  predicate ValidRounds(rounds: seq<Round>) {
    forall i :: 0 <= i < |rounds| ==> ValidRound(rounds[i])
  }

  /** Event ids count the events of a history from 1. */
  function Numbering(start: int, kinds: seq<Kind>): (es: seq<Event>)
    ensures |es| == |kinds|
    ensures forall i :: 0 <= i < |kinds| ==> es[i] == Event(start + i, kinds[i])
  {
    seq(|kinds|, i requires 0 <= i < |kinds| => Event(start + i, kinds[i]))
  }

  predicate Consecutive(h: seq<Event>) {
    forall i :: 0 <= i < |h| ==> h[i].id == i + 1
  }

  /** What the server appends before it hands out the task. */
  function NewEvents(h: seq<Event>, r: Round): seq<Event> {
    Numbering(|h| + 1, r.noise + [DecisionTaskStarted(r.time)])
  }

  /** The id of the completion event; the commands follow it. */
  function BaseId(h: seq<Event>, r: Round): int {
    |h| + |r.noise| + 2
  }

  /** The command event that records a decision. */
  function ReplyTo(e: Entry, completed: int, r: Round): Kind {
    match e.decision
    case ScheduleActivity(id, t, i) =>
      ActivityTaskScheduled(if id.Some? then Decimal.ToWire(id.value) else "", t, i, completed)
    case StartChildWorkflow(_, _, _) => StartChildWorkflowExecutionInitiated
    case RequestActivityCancellation(_) =>
      if e.id in r.refused then RequestCancelActivityTaskFailed(r.cause) else ActivityTaskCancelRequested
    case RecordMarker(name, details) => MarkerRecorded(name, details)
    case StartTimer(_, _) => TimerStarted
    case CancelTimer(_) => if e.id in r.refused then CancelTimerFailed(r.cause) else TimerCanceled
    case CompleteWorkflow(_) => WorkflowExecutionCompleted
    case FailWorkflow(_, _) => WorkflowExecutionFailed
  }

  function Replies(es: seq<Entry>, completed: int, r: Round): (ks: seq<Kind>)
    ensures |ks| == |es|
    ensures forall i :: 0 <= i < |es| ==> ks[i] == ReplyTo(es[i], completed, r)
  {
    seq(|es|, i requires 0 <= i < |es| => ReplyTo(es[i], completed, r))
  }

  function CancelRequests(n: nat): (ks: seq<Kind>)
    ensures |ks| == n && forall i :: 0 <= i < n ==> ks[i] == WorkflowExecutionCancelRequested
  {
    seq(n, _ => WorkflowExecutionCancelRequested)
  }

  /** What the server appends when the task is completed with these decisions. */
  function Completion(h: seq<Event>, r: Round, es: seq<Entry>): seq<Event> {
    var base := BaseId(h, r);
    Numbering(base, [DecisionTaskCompleted] + Replies(es, base, r) + CancelRequests(r.cancels))
  }

  function Segment(h: seq<Event>, r: Round, es: seq<Entry>): seq<Event> {
    NewEvents(h, r) + Completion(h, r, es)
  }

  /** No decision closes the workflow. */
  predicate NoTerminal(es: seq<Entry>) {
    forall i :: 0 <= i < |es| ==> !es[i].decision.Terminal()
  }

  /** The server can echo this decision in a form that replay accepts: an activity id chosen by the user must be a
      number, because replay reads it back with `to_i`; and a refused timer cancellation makes replay call a method
      that does not exist. */
  predicate Replayable(e: Entry, r: Round) {
    && (e.decision.ScheduleActivity? ==> e.decision.activityId.Some? && e.decision.activityId.value.IntId?)
    && (e.decision.CancelTimer? ==> e.id !in r.refused)
  }

  predicate AllReplayable(es: seq<Entry>, r: Round) {
    forall i :: 0 <= i < |es| ==> Replayable(es[i], r)
  }

  /** What the replay of a decision's command event raises, if it does. */
  function FaultOf(e: Entry, r: Round): Option<Error> {
    if Replayable(e, r) then None
    else if e.decision.CancelTimer? then Some(NoSuchMethod)
    else Some(NonDeterministicWorkflow)
  }

  /** The fault that replay meets first among the decisions of a round. */
  function FirstFault(es: seq<Entry>, r: Round): Option<Error> {
    if es == [] then None
    else
      var earlier := FirstFault(es[..|es| - 1], r);
      if earlier.Some? then earlier else FaultOf(es[|es| - 1], r)
  }

  lemma {:induction false} NoFault(es: seq<Entry>, r: Round)
    ensures FirstFault(es, r).None? <==> AllReplayable(es, r)
  {
    if es != [] {
      NoFault(es[..|es| - 1], r);
    }
  }

  // ----- Workers without memory -----

  /** The state of the world after some rounds: the server's history, the last executor and what it returned. */
  datatype World = World(history: seq<Event>, machine: Machine, issued: seq<Entry>)

  /** Nothing has happened yet. */
  const START := World([], FRESH_MACHINE, [])

  /** Every task is handled by a fresh executor over the whole history, as `DecisionTaskProcessor#process` does. */
  function StatelessRun(start: World, code: Code, budget: nat, rounds: seq<Round>): Result<World> {
    if rounds == [] then Ok(start)
    else
      var r := rounds[|rounds| - 1];
      var prior :- StatelessRun(start, code, budget, rounds[..|rounds| - 1]);
      if !NoTerminal(prior.issued) then Err(WorkflowClosed)
      else
        var m :- Execute(Env(code, r.oracle, budget), prior.history + NewEvents(prior.history, r));
        Ok(World(prior.history + Segment(prior.history, r, m.manager.decisions), m, m.manager.decisions))
  }

  // ----- The worker that remembers -----

  /** The server has taken the decisions. */
  function Accepted(m: Machine): Machine {
    m.(manager := m.manager.(decisions := []))
  }

  /** One executor for the whole life of the workflow: each task applies only the newest window, live. */
  function KeptRun(start: World, code: Code, budget: nat, rounds: seq<Round>): Result<World> {
    if rounds == [] then Ok(start)
    else
      var r := rounds[|rounds| - 1];
      var prior :- KeptRun(start, code, budget, rounds[..|rounds| - 1]);
      if !NoTerminal(prior.issued) then Err(WorkflowClosed)
      else
        var m :- ApplyWindow(Env(code, r.oracle, budget), Accepted(prior.machine), Collect(NewEvents(prior.history,
            r)));
        Ok(World(prior.history + Segment(prior.history, r, m.manager.decisions), m, m.manager.decisions))
  }

  /** What the last round of a run did. */
  lemma LastRound(start: World, code: Code, budget: nat, rounds: seq<Round>)
    requires rounds != [] && KeptRun(start, code, budget, rounds).Ok?
    ensures
      var front, r := rounds[..|rounds| - 1], rounds[|rounds| - 1];
      && KeptRun(start, code, budget, front).Ok?
      && var prior, kept := KeptRun(start, code, budget, front).value, KeptRun(start, code, budget, rounds).value;
         && NoTerminal(prior.issued)
         && kept.issued == kept.machine.manager.decisions
         && kept.history == prior.history + Segment(prior.history, r, kept.issued)
         && ApplyWindow(Env(code, r.oracle, budget), Accepted(prior.machine), Collect(NewEvents(prior.history, r)))
            == Ok(kept.machine)
  {
    hide ApplyWindow, Collect, Segment, NewEvents, NoTerminal;
  }

  /** Every decision recorded so far can be replayed. */
  predicate ReplayableRun(start: World, code: Code, budget: nat, rounds: seq<Round>) {
    rounds == [] || (
      var run := KeptRun(start, code, budget, rounds);
      && run.Ok?
      && AllReplayable(run.value.issued, rounds[|rounds| - 1])
      && ReplayableRun(start, code, budget, rounds[..|rounds| - 1])
    )
  }

  /** The fault that replay of all recorded rounds meets first. */
  function RunFault(start: World, code: Code, budget: nat, rounds: seq<Round>): Option<Error> {
    if rounds == [] then None
    else
      var earlier, run := RunFault(start, code, budget, rounds[..|rounds| - 1]), KeptRun(start, code, budget, rounds);
      if earlier.Some? || run.Err? then earlier else FirstFault(run.value.issued, rounds[|rounds| - 1])
  }
}
