/** History events: `lib/cadence/workflow/history/event.rb` and `event_target.rb`. */
module Events {
  import opened Base
  import opened Decisions
  import Decimal

  /** The other event types that the server can write; `apply_event` has an empty branch for each. */
  datatype OtherType =
    | WorkflowExecutionTimedOut
    | WorkflowExecutionCanceled
    | WorkflowExecutionTerminated
    | WorkflowExecutionContinuedAsNew
    | RequestCancelExternalWorkflowExecutionInitiated
    | RequestCancelExternalWorkflowExecutionFailed
    | ExternalWorkflowExecutionCancelRequested
    | SignalExternalWorkflowExecutionInitiated
    | SignalExternalWorkflowExecutionFailed
    | ExternalWorkflowExecutionSignaled
    | UpsertWorkflowSearchAttributes
  {
    /** `decision_id` asks these for a `scheduledEventId`, which their attributes do not have. */
    predicate LacksScheduledId() {
      || WorkflowExecutionTerminated? || RequestCancelExternalWorkflowExecutionFailed?
      || ExternalWorkflowExecutionCancelRequested? || SignalExternalWorkflowExecutionFailed?
      || ExternalWorkflowExecutionSignaled? || UpsertWorkflowSearchAttributes?
    }
  }

  datatype Kind =
    | WorkflowExecutionStarted(input: Value)
    | WorkflowExecutionCompleted
    | WorkflowExecutionFailed
    | DecisionTaskScheduled
    | DecisionTaskStarted(timestamp: int)
    | DecisionTaskCompleted
    | DecisionTaskTimedOut
    | DecisionTaskFailed
    | ActivityTaskScheduled(activityId: string, activityType: string, input: Value, decisionTaskCompletedEventId: int)
    | ActivityTaskStarted(scheduledEventId: int)
    | ActivityTaskCompleted(scheduledEventId: int, result: Value)
    | ActivityTaskFailed(scheduledEventId: int, reason: string, details: Value)
    | ActivityTaskTimedOut(scheduledEventId: int, timeoutType: string)
    | ActivityTaskCancelRequested
    | RequestCancelActivityTaskFailed(cause: string)
    | ActivityTaskCanceled(scheduledEventId: int, details: Value)
    | TimerStarted
    | TimerFired(startedEventId: int)
    | CancelTimerFailed(cause: string)
    | TimerCanceled
    | WorkflowExecutionCancelRequested
    | MarkerRecorded(markerName: string, details: Value)
    | WorkflowExecutionSignaled(signalName: string, input: Value)
    | StartChildWorkflowExecutionInitiated
    | StartChildWorkflowExecutionFailed(initiatedEventId: int, failure: Value)
    | ChildWorkflowExecutionStarted(initiatedEventId: int)
    | ChildWorkflowExecutionCompleted(initiatedEventId: int, result: Value)
    | ChildWorkflowExecutionFailed(initiatedEventId: int, reason: string, details: Value)
    | ChildWorkflowExecutionCanceled(initiatedEventId: int, details: Value)
    | ChildWorkflowExecutionTimedOut(initiatedEventId: int, timeoutType: string)
    | ChildWorkflowExecutionTerminated(initiatedEventId: int)
    | Other(other: OtherType)
    | Unsupported(name: string)
  {
    /** `COMMAND_EVENT_TYPES`. */
    predicate Command() {
      || ActivityTaskScheduled? || ActivityTaskCancelRequested? || TimerStarted? || CancelTimerFailed?
      || TimerCanceled? || WorkflowExecutionCancelRequested? || StartChildWorkflowExecutionInitiated?
      || RequestCancelActivityTaskFailed? || MarkerRecorded?
      || (Other? && (other.SignalExternalWorkflowExecutionInitiated?
                     || other.RequestCancelExternalWorkflowExecutionInitiated?))
    }

    /** Events that record the life of a decision task; a window digests them and never hands them on. */
    predicate Bookkeeping() {
      || DecisionTaskScheduled? || DecisionTaskStarted? || DecisionTaskCompleted? || DecisionTaskTimedOut?
      || DecisionTaskFailed?
    }

    /** Command events whose branch in `apply_event` pops the head of the decision list. */
    predicate Discards() {
      || ActivityTaskScheduled? || ActivityTaskCancelRequested? || RequestCancelActivityTaskFailed?
      || TimerStarted? || CancelTimerFailed? || TimerCanceled? || StartChildWorkflowExecutionInitiated?
    }
  }

  datatype Event = Event(id: int, kind: Kind) {
    /** `Event#decision_id`; the types that lack the attribute it asks for raise before it matters. */
    function DecisionId(): int {
      match kind
      case TimerFired(s) => s
      case WorkflowExecutionSignaled(_, _) => 1
      case ActivityTaskStarted(s) => s
      case ActivityTaskCompleted(s, _) => s
      case ActivityTaskFailed(s, _, _) => s
      case ActivityTaskTimedOut(s, _) => s
      case ActivityTaskCanceled(s, _) => s
      case StartChildWorkflowExecutionFailed(i, _) => i
      case ChildWorkflowExecutionStarted(i) => i
      case ChildWorkflowExecutionCompleted(i, _) => i
      case ChildWorkflowExecutionFailed(i, _, _) => i
      case ChildWorkflowExecutionCanceled(i, _) => i
      case ChildWorkflowExecutionTimedOut(i, _) => i
      case ChildWorkflowExecutionTerminated(i) => i
      case _ => id
    }

    /** `EventTarget.from_event`. */
    function Target(): Target {
      Decisions.Target(DecisionId(), TargetTypeOfKind(kind))
    }

    /** `Event#target_attributes`: the recorded activity id is read back with `to_i`. */
    function Attributes(): Attributes {
      match kind
      case ActivityTaskScheduled(id, t, i, _) => ActivityAttributes(Decimal.FromWire(id), t, i)
      case _ => NoAttributes
    }
  }

  function TargetTypeOfOther(t: OtherType): TargetType {
    match t
    case WorkflowExecutionCanceled => CancelWorkflowRequest
    case RequestCancelExternalWorkflowExecutionInitiated => CancelExternalWorkflowRequest
    case RequestCancelExternalWorkflowExecutionFailed => CancelExternalWorkflowRequest
    case ExternalWorkflowExecutionCancelRequested => ExternalWorkflow
    case SignalExternalWorkflowExecutionInitiated => ExternalWorkflow
    case SignalExternalWorkflowExecutionFailed => ExternalWorkflow
    case ExternalWorkflowExecutionSignaled => ExternalWorkflow
    case _ => Workflow
  }

  /** What the ordered prefix table of `EventTarget` yields for each modelled type name (see `PrefixTable`). */
  function TargetTypeOfKind(k: Kind): TargetType {
    match k
    case ActivityTaskCancelRequested => CancelActivityRequest
    case ActivityTaskCanceled(_, _) => CancelActivityRequest
    case RequestCancelActivityTaskFailed(_) => CancelActivityRequest
    case ActivityTaskScheduled(_, _, _, _) => Activity
    case ActivityTaskStarted(_) => Activity
    case ActivityTaskCompleted(_, _) => Activity
    case ActivityTaskFailed(_, _, _) => Activity
    case ActivityTaskTimedOut(_, _) => Activity
    case TimerCanceled => CancelTimerRequest
    case CancelTimerFailed(_) => CancelTimerRequest
    case TimerStarted => Timer
    case TimerFired(_) => Timer
    case MarkerRecorded(_, _) => Marker
    case StartChildWorkflowExecutionInitiated => ChildWorkflow
    case StartChildWorkflowExecutionFailed(_, _) => ChildWorkflow
    case ChildWorkflowExecutionStarted(_) => ChildWorkflow
    case ChildWorkflowExecutionCompleted(_, _) => ChildWorkflow
    case ChildWorkflowExecutionFailed(_, _, _) => ChildWorkflow
    case ChildWorkflowExecutionCanceled(_, _) => ChildWorkflow
    case ChildWorkflowExecutionTimedOut(_, _) => ChildWorkflow
    case ChildWorkflowExecutionTerminated(_) => ChildWorkflow
    case Other(t) => TargetTypeOfOther(t)
    case WorkflowExecutionCancelRequested => CancelWorkflowRequest
    case _ => Workflow
  }
}
