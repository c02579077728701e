/** Which events finish a future, listed one by one, and what follows for timers and activities: neither the
    cancellation of a timer nor that of an activity ever finishes the future it cancels. */
module Settlements {
  import opened Base
  import opened Decisions
  import opened Events
  import opened Engine
  import opened Protocol
  import opened Routing
  import opened CompletionRouting

  datatype Settlement = Settlement(target: Target, status: Status)

  /** The events that finish a future: the command they answer and the status they give. */
  function SettlementOf(e: Event): Option<Settlement> {
    match e.kind
    case ActivityTaskCompleted(id, v) => Some(Settlement(Target(id, Activity), Ready(v)))
    case ActivityTaskFailed(id, reason, d) => Some(Settlement(Target(id, Activity), Broken(reason, d)))
    case ActivityTaskTimedOut(id, t) => Some(Settlement(Target(id, Activity), TimedOut(t)))
    case TimerFired(id) => Some(Settlement(Target(id, Timer), Ready(Null)))
    case StartChildWorkflowExecutionFailed(id, d) =>
      Some(Settlement(Target(id, ChildWorkflow), Broken("StandardError", d)))
    case ChildWorkflowExecutionCompleted(id, v) => Some(Settlement(Target(id, ChildWorkflow), Ready(v)))
    case ChildWorkflowExecutionFailed(id, reason, d) => Some(Settlement(Target(id, ChildWorkflow), Broken(reason, d)))
    case ChildWorkflowExecutionCanceled(id, d) => Some(Settlement(Target(id, ChildWorkflow), Broken("CANCELLED", d)))
    case ChildWorkflowExecutionTimedOut(id, t) => Some(Settlement(Target(id, ChildWorkflow), TimedOut(t)))
    case _ => None
  }

  function TimedOut(timeoutType: string): Status {
    Broken("Cadence::TimeoutError", Text("Timeout type: " + timeoutType))
  }

  /** The event finishes the future of this command. */
  predicate Settles(e: Event, t: Target) {
    SettlementOf(e).Some? && SettlementOf(e).value.target == t
  }

  /** The dispatch table and the handlers that the context registers finish futures by exactly these events. */
  lemma SettlementsAgree(e: Event, t: Target)
    ensures Closes(e, t) <==> Settles(e, t)
    ensures Closes(e, t) ==> Reported(e) == SettlementOf(e).value.status
  {
  }

  lemma {:induction false} FinishedWhenSettled(es: seq<Event>, t: Target)
    ensures !Verdict(es, t).Pending? <==> exists e :: e in es && Settles(e, t)
  {
    hide Closes, Reported, Settles;
    if es != [] {
      var front, last := es[..|es| - 1], es[|es| - 1];
      FinishedWhenSettled(front, t);
      SettlementsAgree(last, t);
      StatusIsFinal(last, t);
      assert forall e :: e in es <==> e in front || e == last;
    }
  }

  lemma StatusIsFinal(e: Event, t: Target)
    ensures Closes(e, t) ==> !Reported(e).Pending?
  {
  }

  /** The history says that the activity with this id is over. */
  predicate ActivityOver(e: Event, id: int) {
    match e.kind
    case ActivityTaskCompleted(i, _) => i == id
    case ActivityTaskFailed(i, _, _) => i == id
    case ActivityTaskTimedOut(i, _) => i == id
    case _ => false
  }

  /** In every run with timely outcomes, the future of a timer is finished exactly when the timer has fired, and the
      future of an activity exactly when the activity has completed, failed or timed out: cancelling them, even when the
      server confirms it, leaves their futures pending for ever. */
  lemma CancellationNeverSettles(code: Code, budget: nat, rounds: seq<Round>, i: nat)
    requires ValidRounds(rounds) && rounds != [] && TimelyOutcomes(code, budget, rounds)
    requires ReplayableRun(START, code, budget, rounds[..|rounds| - 1])
    requires StatelessRun(START, code, budget, rounds).Ok?
    requires i < |StatelessRun(START, code, budget, rounds).value.machine.futures|
    ensures
      var world := StatelessRun(START, code, budget, rounds).value;
      var future := world.machine.futures[i];
      && (future.target.kind == Timer ==>
            (!future.status.Pending? <==> exists e :: e in world.history && e.kind == TimerFired(future.target.id)))
      && (future.target.kind == Activity ==>
            (!future.status.Pending? <==> exists e :: e in world.history && ActivityOver(e, future.target.id)))
  {
    hide StatelessRun, ValidRounds, TimelyOutcomes, ReplayableRun, Verdict;
    CompletionsReachTheirFutures(code, budget, rounds);
    var world := StatelessRun(START, code, budget, rounds).value;
    var t := world.machine.futures[i].target;
    FinishedWhenSettled(world.history, t);
    forall e
      ensures t.kind == Timer ==> (Settles(e, t) <==> e.kind == TimerFired(t.id))
      ensures t.kind == Activity ==> (Settles(e, t) <==> ActivityOver(e, t.id))
    {
      SettledKinds(e, t);
    }
    hide Settles, ActivityOver;
  }

  lemma SettledKinds(e: Event, t: Target)
    ensures t.kind == Timer ==> (Settles(e, t) <==> e.kind == TimerFired(t.id))
    ensures t.kind == Activity ==> (Settles(e, t) <==> ActivityOver(e, t.id))
  {
  }
}
