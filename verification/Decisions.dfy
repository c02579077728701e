/** The decisions a workflow issues and the targets that name them. */
module Decisions {
  import opened Base

  datatype Decision =
    | ScheduleActivity(activityId: Option<Ident>, activityType: string, input: Value)
    | StartChildWorkflow(workflowId: Option<Ident>, workflowType: string, input: Value)
    | RequestActivityCancellation(activityId: Option<Ident>)
    | RecordMarker(name: string, details: Value)
    | StartTimer(timeout: int, timerId: Option<Ident>)
    | CancelTimer(timerId: Option<Ident>)
    | CompleteWorkflow(result: Value)
    | FailWorkflow(reason: string, details: Value)
  {
    predicate Terminal() { CompleteWorkflow? || FailWorkflow? }
  }

  const SIDE_EFFECT_MARKER := "SIDE_EFFECT"
  const RELEASE_MARKER := "RELEASE"

  datatype TargetType =
    | Activity
    | CancelActivityRequest
    | Timer
    | CancelTimerRequest
    | ChildWorkflow
    | Marker
    | ExternalWorkflow
    | CancelExternalWorkflowRequest
    | Workflow
    | CancelWorkflowRequest

  /** An event target; two targets are equal when id and type are. */
  datatype Target = Target(id: int, kind: TargetType)

  const WORKFLOW_TARGET := Target(1, Workflow)

  /** The attributes that a replay compares beside the target: only activities have any. */
  datatype Attributes = NoAttributes | ActivityAttributes(activityId: Ident, activityType: string, input: Value)

  /** A decision together with the event id predicted for it. */
  datatype Entry = Entry(id: int, decision: Decision)

  function TargetTypeOf(d: Decision): TargetType {
    match d
    case ScheduleActivity(_, _, _) => Activity
    case StartChildWorkflow(_, _, _) => ChildWorkflow
    case RequestActivityCancellation(_) => CancelActivityRequest
    case RecordMarker(_, _) => Marker
    case StartTimer(_, _) => Timer
    case CancelTimer(_) => CancelTimerRequest
    case CompleteWorkflow(_) => Workflow
    case FailWorkflow(_, _) => Workflow
  }

  /** `EventTarget.from_decision`, the part that equality looks at. */
  function TargetOf(e: Entry): Target {
    Target(e.id, TargetTypeOf(e.decision))
  }

  /** `EventTarget.from_decision`, the attribute part. */
  function AttributesOf(d: Decision): Attributes {
    if d.ScheduleActivity? && d.activityId.Some? then
      ActivityAttributes(d.activityId.value, d.activityType, d.input)
    else
      NoAttributes
  }

  /** `decision.xxx_id ||= decision_id`. */
  function WithDefaultId(d: Decision, id: int): (r: Decision)
    ensures TargetTypeOf(r) == TargetTypeOf(d)
    ensures r.Terminal() <==> d.Terminal()
    ensures r.RecordMarker? ==> r == d
    ensures r.ScheduleActivity? ==> r.activityId.Some?
  {
    match d
    case ScheduleActivity(None, t, i) => ScheduleActivity(Some(IntId(id)), t, i)
    case StartChildWorkflow(None, t, i) => StartChildWorkflow(Some(IntId(id)), t, i)
    case StartTimer(t, None) => StartTimer(t, Some(IntId(id)))
    case _ => d
  }

  /** The identifier a later cancellation must quote. */
  function CancelationId(d: Decision): Option<Ident> {
    match d
    case ScheduleActivity(id, _, _) => id
    case StartChildWorkflow(id, _, _) => id
    case StartTimer(_, id) => id
    case _ => None
  }
}
