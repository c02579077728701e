/** Which events raise, and what the others do to the decision list. */
module Refusals {
  import opened Base
  import opened Events
  import opened StateManagers
  import opened Engine
  import opened Conservation

  /** Types whose id is read from an attribute that they do not have. */
  predicate MissesAttribute(k: Kind) {
    k.Other? && match k.other
                case WorkflowExecutionTerminated => true
                case UpsertWorkflowSearchAttributes => true
                case ExternalWorkflowExecutionSignaled => true
                case ExternalWorkflowExecutionCancelRequested => true
                case SignalExternalWorkflowExecutionFailed => true
                case RequestCancelExternalWorkflowExecutionFailed => true
                case _ => false
  }

  /** Types that answer the oldest decision in the list. */
  predicate AnswersDecision(k: Kind) {
    match k
    case ActivityTaskScheduled(_, _, _, _) => true
    case ActivityTaskCancelRequested => true
    case RequestCancelActivityTaskFailed(_) => true
    case TimerStarted => true
    case TimerCanceled => true
    case StartChildWorkflowExecutionInitiated => true
    case _ => false
  }

  /** Each reason for which an event raises, and that there is no other. An event that answers a decision takes the
      oldest one off the list if it echoes it, and raises the determinism error if it does not; no other event touches
      the list. */
  lemma RaisesExactly(m: ManagerState, e: Event)
    ensures
      var k := e.kind;
      match Absorb(m, e)
      case Ok(after) =>
        && !k.Unsupported? && !k.CancelTimerFailed? && !MissesAttribute(k)
        && (k.MarkerRecorded? ==> k.markerName == "SIDE_EFFECT" || k.markerName == "RELEASE")
        && (AnswersDecision(k) ==> m.decisions != [] && Echoes(e, m.decisions[0]))
        && after.decisions == if AnswersDecision(k) then m.decisions[1..] else m.decisions
      case Err(error) =>
        || (error == UnsupportedEvent && k.Unsupported?)
        || (error == NoSuchMethod && (k.CancelTimerFailed? || MissesAttribute(k)))
        || (error == UnsupportedMarker && k.MarkerRecorded? && k.markerName !in ["SIDE_EFFECT", "RELEASE"])
        || (error == NonDeterministicWorkflow && AnswersDecision(k)
            && !(m.decisions != [] && Echoes(e, m.decisions[0])))
  {
  }

  /** The guards of a future: a failed one takes no result and a finished one takes no failure; otherwise it takes what
      it is given, and a result runs the callbacks. */
  lemma GuardsOfFutures(env: Env, m: Machine, f: nat, v: Value, p: Payload)
    requires f < |m.futures|
    ensures
      var future := m.futures[f];
      var finished := m.(futures := m.futures[f := future.(status := Ready(v))]);
      var failed := m.(futures := m.futures[f := future.(status := Broken(p.text, p.value))]);
      && SettleFuture(env, m, f, v)
         == (if future.status.Broken? then Err(FutureConflict) else RunCallbacks(env, finished, future.callbacks, v))
      && BreakFuture(m, f, p) == (if future.status.Ready? then Err(FutureConflict) else Ok(failed))
  {
    hide RunCallbacks;
  }
}
