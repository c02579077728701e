/** What an event says about the decision it is about: its phase is the last word of the event's type, and the decision
    is the one that the event quotes, or the event itself. */
module Phases {
  import opened Decisions
  import opened Events
  import opened StateManagers
  import opened TypeNames

  predicate EndsIn(name: string, end: string)
    requires |end| == 4
  {
    var n := |name|;
    n >= 4 && name[n - 4] == end[0] && name[n - 3] == end[1] && name[n - 2] == end[2] && name[n - 1] == end[3]
  }

  /** The word with which a type name says that a decision got to this phase, by its last four letters: Requested,
      Scheduled or Initiated, Started, Completed or Fired or Recorded, Canceled, Failed, TimedOut. */
  predicate Says(name: string, p: Phase) {
    match p
    case New => false
    case Requested => EndsIn(name, "sted")
    case Scheduled => EndsIn(name, "uled") || EndsIn(name, "ated")
    case Started => EndsIn(name, "rted")
    case Completed => EndsIn(name, "eted") || EndsIn(name, "ired") || EndsIn(name, "rded")
    case Canceled => EndsIn(name, "eled")
    case Failed => EndsIn(name, "iled")
    case TimedOut => EndsIn(name, "dOut")
  }

  lemma ActivityPhases(k: Kind)
    requires TargetTypeOfKind(k) == Activity && PhaseAfter(k).Some?
    ensures Says(NameOf(k), PhaseAfter(k).value)
  {
    match k
    case ActivityTaskScheduled(_, _, _, _) => assert EndsIn(NameOf(k), "uled");
    case ActivityTaskStarted(_) => assert EndsIn(NameOf(k), "rted");
    case ActivityTaskCompleted(_, _) => assert EndsIn(NameOf(k), "eted");
    case ActivityTaskFailed(_, _, _) => assert EndsIn(NameOf(k), "iled");
    case ActivityTaskTimedOut(_, _) => assert EndsIn(NameOf(k), "dOut");
  }

  lemma RequestPhases(k: Kind)
    requires TargetTypeOfKind(k) == CancelActivityRequest || TargetTypeOfKind(k) == CancelTimerRequest
    requires PhaseAfter(k).Some?
    ensures Says(NameOf(k), PhaseAfter(k).value)
  {
    match k
    case ActivityTaskCancelRequested => assert EndsIn(NameOf(k), "sted");
    case RequestCancelActivityTaskFailed(_) => assert EndsIn(NameOf(k), "iled");
    case ActivityTaskCanceled(_, _) => assert EndsIn(NameOf(k), "eled");
    case TimerCanceled => assert EndsIn(NameOf(k), "eled");
  }

  lemma ChildPhases(k: Kind)
    requires TargetTypeOfKind(k) == ChildWorkflow && PhaseAfter(k).Some?
    ensures Says(NameOf(k), PhaseAfter(k).value)
  {
    match k
    case StartChildWorkflowExecutionInitiated => assert EndsIn(NameOf(k), "ated");
    case StartChildWorkflowExecutionFailed(_, _) => assert EndsIn(NameOf(k), "iled");
    case ChildWorkflowExecutionStarted(_) => assert EndsIn(NameOf(k), "rted");
    case ChildWorkflowExecutionCompleted(_, _) => assert EndsIn(NameOf(k), "eted");
    case ChildWorkflowExecutionFailed(_, _, _) => assert EndsIn(NameOf(k), "iled");
    case ChildWorkflowExecutionCanceled(_, _) => assert EndsIn(NameOf(k), "eled");
    case ChildWorkflowExecutionTimedOut(_, _) => assert EndsIn(NameOf(k), "dOut");
  }

  lemma OtherPhases(k: Kind)
    requires TargetTypeOfKind(k) in {Timer, Marker, Workflow} && PhaseAfter(k).Some?
    ensures Says(NameOf(k), PhaseAfter(k).value)
  {
    match k
    case TimerStarted => assert EndsIn(NameOf(k), "rted");
    case TimerFired(_) => assert EndsIn(NameOf(k), "ired");
    case MarkerRecorded(_, _) => assert EndsIn(NameOf(k), "rded");
    case WorkflowExecutionStarted(_) => assert EndsIn(NameOf(k), "rted");
  }

  /** An event sets the phase that its type names. Those that set none are the events of decision tasks and of the
      workflow after its start, of external workflows, a refused timer cancellation and a terminated child. */
  lemma PhaseByName(k: Kind)
    ensures PhaseAfter(k).Some? ==> Says(NameOf(k), PhaseAfter(k).value)
    ensures
      PhaseAfter(k).None?
      <==> k.Bookkeeping() || k.Other? || k.CancelTimerFailed? || k.ChildWorkflowExecutionTerminated?
           || TargetTypeOfKind(k) == CancelWorkflowRequest
           || (TargetTypeOfKind(k) == Workflow && !k.WorkflowExecutionStarted?)
  {
    hide Says, NameOf;
    if PhaseAfter(k).Some? {
      match TargetTypeOfKind(k) {
        case Activity => ActivityPhases(k);
        case ChildWorkflow => ChildPhases(k);
        case CancelActivityRequest => RequestPhases(k);
        case CancelTimerRequest => RequestPhases(k);
        case _ => OtherPhases(k);
      }
    }
  }

  // ----- The decision an event is about -----

  /** The two lists by which the library finds the event that another one quotes. */
  const SCHEDULED_NAMES: seq<string> := [
    "ActivityTaskStarted", "ActivityTaskCompleted", "ActivityTaskFailed", "ActivityTaskTimedOut",
    "ActivityTaskCanceled", "TimerFired", "RequestCancelExternalWorkflowExecution" + "Failed",
    "WorkflowExecutionSignaled", "WorkflowExecutionTerminated", "SignalExternalWorkflowExecution" + "Failed",
    "ExternalWorkflowExecutionCancelRequested", "ExternalWorkflowExecutionSignaled", "UpsertWorkflowSearchAttributes"]

  const CHILD_NAMES: seq<string> := [
    "StartChildWorkflowExecutionFailed", "ChildWorkflowExecutionStarted", "ChildWorkflowExecutionCompleted",
    "ChildWorkflowExecutionFailed", "ChildWorkflowExecutionCanceled", "ChildWorkflowExecutionTimedOut",
    "ChildWorkflowExecutionTerminated"]

  /** Length and first letter tell the names in each list from all others, but for one letter of two of them. */
  predicate ScheduledShape(n: string) {
    || (|n| == 10 && n[0] == 'T') || (|n| in {18, 19, 20} && n[0] == 'A') || (|n| == 21 && n[0] == 'A' && n[12] == 'C')
    || (|n| == 25 && n[0] == 'W' && n[17] == 'S') || (|n| == 27 && n[0] == 'W') || (|n| == 30 && n[0] == 'U')
    || (|n| in {33, 40} && n[0] == 'E') || (|n| == 37 && n[0] == 'S') || (|n| == 44 && n[0] == 'R')
  }

  predicate ChildShape(n: string) {
    (|n| in {28, 29, 30, 31, 32} && n[0] == 'C') || (|n| == 33 && n[0] == 'S')
  }

  lemma ScheduledListShape(n: string)
    ensures n in SCHEDULED_NAMES ==> ScheduledShape(n)
  {
  }

  lemma ChildListShape(n: string)
    ensures n in CHILD_NAMES ==> ChildShape(n)
  {
  }

  /** The kinds in the first list: an activity's later events, a fired timer, a signal, and those that lack what they
      are asked for. */
  predicate AskedForSchedule(k: Kind) {
    || (TargetTypeOfKind(k) == Activity && !k.ActivityTaskScheduled?) || k.ActivityTaskCanceled? || k.TimerFired?
    || k.WorkflowExecutionSignaled? || (k.Other? && k.other.LacksScheduledId())
  }

  predicate AskedForInitiation(k: Kind) {
    TargetTypeOfKind(k) == ChildWorkflow && !k.StartChildWorkflowExecutionInitiated?
  }

  predicate InLists(k: Kind, n: string) {
    && (if AskedForSchedule(k) then n in SCHEDULED_NAMES else !ScheduledShape(n))
    && (if AskedForInitiation(k) then n in CHILD_NAMES else !ChildShape(n))
  }

  lemma DecisionTaskNamesInLists(k: Kind)
    requires k.Bookkeeping()
    ensures InLists(k, NameOf(k))
  {
    hide SCHEDULED_NAMES, CHILD_NAMES;
  }

  lemma ActivityNamesInLists(k: Kind)
    requires TargetTypeOfKind(k) == Activity || TargetTypeOfKind(k) == CancelActivityRequest
    ensures InLists(k, NameOf(k))
  {
    hide CHILD_NAMES;
  }

  lemma TaskNamesInLists(k: Kind)
    requires k.Bookkeeping() || TargetTypeOfKind(k) == Activity || TargetTypeOfKind(k) == CancelActivityRequest
    ensures InLists(k, NameOf(k))
  {
    hide InLists, NameOf;
    if k.Bookkeeping() {
      DecisionTaskNamesInLists(k);
    } else {
      ActivityNamesInLists(k);
    }
  }

  lemma ListedChildren()
    ensures |CHILD_NAMES| == 7
    ensures CHILD_NAMES[0] == "StartChildWorkflowExecutionFailed"
    ensures CHILD_NAMES[1] == "ChildWorkflowExecutionStarted"
    ensures CHILD_NAMES[2] == "ChildWorkflowExecutionCompleted"
    ensures CHILD_NAMES[3] == "ChildWorkflowExecutionFailed"
    ensures CHILD_NAMES[4] == "ChildWorkflowExecutionCanceled"
    ensures CHILD_NAMES[5] == "ChildWorkflowExecutionTimedOut"
    ensures CHILD_NAMES[6] == "ChildWorkflowExecutionTerminated"
  {
  }

  lemma ChildListed(k: Kind)
    requires AskedForInitiation(k)
    ensures NameOf(k) in CHILD_NAMES
  {
    ListedChildren();
    hide CHILD_NAMES;
    match k
    case StartChildWorkflowExecutionFailed(_, _) => assert NameOf(k) == CHILD_NAMES[0];
    case ChildWorkflowExecutionStarted(_) => assert NameOf(k) == CHILD_NAMES[1];
    case ChildWorkflowExecutionCompleted(_, _) => assert NameOf(k) == CHILD_NAMES[2];
    case ChildWorkflowExecutionFailed(_, _, _) => assert NameOf(k) == CHILD_NAMES[3];
    case ChildWorkflowExecutionCanceled(_, _) => assert NameOf(k) == CHILD_NAMES[4];
    case ChildWorkflowExecutionTimedOut(_, _) => assert NameOf(k) == CHILD_NAMES[5];
    case ChildWorkflowExecutionTerminated(_) => assert NameOf(k) == CHILD_NAMES[6];
  }

  lemma ChildShapes(k: Kind)
    requires TargetTypeOfKind(k) == ChildWorkflow && !k.Other?
    ensures !ScheduledShape(NameOf(k))
    ensures k.StartChildWorkflowExecutionInitiated? ==> !ChildShape(NameOf(k))
  {
  }

  lemma ChildNamesInLists(k: Kind)
    requires TargetTypeOfKind(k) == ChildWorkflow && !k.Other?
    ensures InLists(k, NameOf(k))
  {
    hide NameOf, SCHEDULED_NAMES, CHILD_NAMES, ScheduledShape, ChildShape;
    ChildShapes(k);
    if AskedForInitiation(k) {
      ChildListed(k);
    }
  }

  lemma ListedNames()
    ensures |SCHEDULED_NAMES| == 13
    ensures SCHEDULED_NAMES[5] == "TimerFired" && SCHEDULED_NAMES[7] == "WorkflowExecutionSignaled"
    ensures SCHEDULED_NAMES[6] == "RequestCancelExternalWorkflowExecution" + "Failed"
    ensures SCHEDULED_NAMES[8] == "WorkflowExecutionTerminated"
    ensures SCHEDULED_NAMES[9] == "SignalExternalWorkflowExecution" + "Failed"
    ensures SCHEDULED_NAMES[10] == "ExternalWorkflowExecutionCancelRequested"
    ensures SCHEDULED_NAMES[11] == "ExternalWorkflowExecutionSignaled"
    ensures SCHEDULED_NAMES[12] == "UpsertWorkflowSearchAttributes"
  {
  }

  lemma LaterListed(t: OtherType)
    requires t.LacksScheduledId()
    ensures NameOfOther(t) in SCHEDULED_NAMES
  {
    ListedNames();
    hide SCHEDULED_NAMES;
    match t
    case WorkflowExecutionTerminated => assert NameOfOther(t) == SCHEDULED_NAMES[8];
    case RequestCancelExternalWorkflowExecutionFailed => assert NameOfOther(t) == SCHEDULED_NAMES[6];
    case ExternalWorkflowExecutionCancelRequested => assert NameOfOther(t) == SCHEDULED_NAMES[10];
    case SignalExternalWorkflowExecutionFailed => assert NameOfOther(t) == SCHEDULED_NAMES[9];
    case ExternalWorkflowExecutionSignaled => assert NameOfOther(t) == SCHEDULED_NAMES[11];
    case UpsertWorkflowSearchAttributes => assert NameOfOther(t) == SCHEDULED_NAMES[12];
  }

  lemma LaterShapes(t: OtherType)
    ensures !ChildShape(NameOfOther(t))
    ensures !t.LacksScheduledId() ==> !ScheduledShape(NameOfOther(t))
  {
    match t
    case WorkflowExecutionTimedOut =>
    case WorkflowExecutionCanceled =>
    case WorkflowExecutionTerminated =>
    case WorkflowExecutionContinuedAsNew =>
    case RequestCancelExternalWorkflowExecutionInitiated =>
    case RequestCancelExternalWorkflowExecutionFailed =>
    case ExternalWorkflowExecutionCancelRequested =>
    case SignalExternalWorkflowExecutionInitiated =>
    case SignalExternalWorkflowExecutionFailed =>
    case ExternalWorkflowExecutionSignaled =>
    case UpsertWorkflowSearchAttributes =>
  }

  lemma LaterNamesInLists(t: OtherType)
    ensures InLists(Other(t), NameOfOther(t))
  {
    hide NameOfOther, SCHEDULED_NAMES, CHILD_NAMES, ScheduledShape, ChildShape;
    LaterShapes(t);
    if t.LacksScheduledId() {
      LaterListed(t);
    }
  }

  lemma OtherNamesInLists(k: Kind)
    requires !k.Unsupported? && !k.Bookkeeping() && !k.Other? && TargetTypeOfKind(k) != ChildWorkflow
    requires TargetTypeOfKind(k) != Activity && TargetTypeOfKind(k) != CancelActivityRequest
    ensures InLists(k, NameOf(k))
  {
    OtherShapes(k);
    ListedNames();
    hide SCHEDULED_NAMES, CHILD_NAMES, ScheduledShape, ChildShape;
    if k.TimerFired? {
      assert NameOf(k) == SCHEDULED_NAMES[5];
    } else if k.WorkflowExecutionSignaled? {
      assert NameOf(k) == SCHEDULED_NAMES[7];
    }
  }

  lemma OtherShapes(k: Kind)
    requires !k.Unsupported? && !k.Bookkeeping() && !k.Other? && TargetTypeOfKind(k) != ChildWorkflow
    requires TargetTypeOfKind(k) != Activity && TargetTypeOfKind(k) != CancelActivityRequest
    ensures !ChildShape(NameOf(k))
    ensures !k.TimerFired? && !k.WorkflowExecutionSignaled? ==> !ScheduledShape(NameOf(k))
  {
  }

  lemma NamesInLists(k: Kind)
    requires !k.Unsupported?
    ensures InLists(k, NameOf(k))
  {
    hide NameOf, InLists;
    if k.Bookkeeping() || TargetTypeOfKind(k) == Activity || TargetTypeOfKind(k) == CancelActivityRequest {
      TaskNamesInLists(k);
    } else if k.Other? {
      NameOfOtherKind(k.other);
      LaterNamesInLists(k.other);
    } else if TargetTypeOfKind(k) == ChildWorkflow {
      ChildNamesInLists(k);
    } else {
      OtherNamesInLists(k);
    }
  }

  /** Which decision an event is about, for each of the 42 types: a fired timer quotes the event that started it, a
      signal is about the workflow, the other names in the first list quote a scheduling event, if they can, those in
      the second the event that initiated a child, and any other event is about itself. */
  lemma DecisionByName(e: Event)
    requires !e.kind.Unsupported?
    ensures
      var k, n := e.kind, NameOf(e.kind);
      if k.TimerFired? then e.DecisionId() == k.startedEventId
      else if k.WorkflowExecutionSignaled? then e.DecisionId() == 1
      else if n in SCHEDULED_NAMES then
        (k.Other? && k.other.LacksScheduledId())
        || ((k.ActivityTaskStarted? || k.ActivityTaskCompleted? || k.ActivityTaskFailed? || k.ActivityTaskTimedOut?
             || k.ActivityTaskCanceled?) && e.DecisionId() == k.scheduledEventId)
      else if n in CHILD_NAMES then AskedForInitiation(k) && e.DecisionId() == k.initiatedEventId
      else e.DecisionId() == e.id && !(k.Other? && k.other.LacksScheduledId())
  {
    hide NameOf, SCHEDULED_NAMES, CHILD_NAMES, ScheduledShape, ChildShape;
    NamesInLists(e.kind);
    ScheduledListShape(NameOf(e.kind));
    ChildListShape(NameOf(e.kind));
  }
}
