/** `lib/cadence/workflow/state_manager.rb`: predicted event ids, markers, releases and the decision list. */
module StateManagers {
  import opened Base
  import opened Decisions
  import opened Events

  /** `DecisionStateMachine` states. */
  datatype Phase = New | Requested | Scheduled | Started | Completed | Canceled | Failed | TimedOut

  datatype SideEffect = SideEffect(id: int, value: Value)

  /** The releases checked so far, by name. */
  type Releases = map<Value, bool>

  datatype ManagerState = ManagerState(
    decisions: seq<Entry>,
    markerIds: set<int>,
    releases: Releases,
    sideEffects: seq<SideEffect>,
    tracker: map<int, Phase>,
    lastEventId: Option<int>,
    localTime: Option<int>,
    replay: bool)

  const FRESH_MANAGER := ManagerState([], {}, map[], [], map[], Some(0), None, false)

  function PhaseOf(tracker: map<int, Phase>, id: int): Phase {
    if id in tracker then tracker[id] else New
  }

  function Above(last: int, markerIds: set<int>): set<int> {
    set x | x in markerIds && last < x
  }

  /** The least id above `last` that no recorded marker occupies. */
  function NextFreeId(last: int, markerIds: set<int>): (id: int)
    ensures last < id && id !in markerIds
    ensures forall x :: last < x < id ==> x in markerIds
    decreases Above(last, markerIds)
  {
    if last + 1 in markerIds then
      assert last + 1 in Above(last, markerIds) && last + 1 !in Above(last + 1, markerIds);
      NextFreeId(last + 1, markerIds)
    else
      last + 1
  }

  /** A scheduled decision's target and the id that cancels it. */
  datatype Issued = Issued(target: Target, cancelationId: Option<Ident>)

  /** The state after a call that may raise; what changed before the raise stays changed. */
  datatype Outcome<+T> = Outcome(state: ManagerState, result: Result<T>)

  /** Consecutive ids right after `base`: what the server will assign. */
  predicate Numbered(es: seq<Entry>, base: int) {
    forall i :: 0 <= i < |es| ==> es[i].id == base + 1 + i
  }

  /** At most one decision completes or fails the workflow, and nothing comes after it. */
  predicate TerminalLast(es: seq<Entry>) {
    forall i :: 0 <= i < |es| - 1 ==> !es[i].decision.Terminal()
  }

  predicate IsSideEffect(e: Entry) {
    e.decision.RecordMarker? && e.decision.name == SIDE_EFFECT_MARKER
  }

  predicate ReleaseMarker(d: Decision) {
    d.RecordMarker? && d.name == RELEASE_MARKER
  }

  predicate IsRelease(e: Entry) {
    ReleaseMarker(e.decision)
  }

  predicate KnownMarker(d: Decision) {
    d.RecordMarker? ==> d.name == SIDE_EFFECT_MARKER || d.name == RELEASE_MARKER
  }

  /** Every marker is a side effect or a release. */
  predicate KnownMarkers(es: seq<Entry>) {
    forall i :: 0 <= i < |es| ==> KnownMarker(es[i].decision)
  }

  /** The code was told true for this release. */
  predicate IsTrue(releases: Releases, name: Value) {
    name in releases && releases[name]
  }

  /** Each release for which a marker waits to be recorded is true. */
  predicate MarkersTrue(m: ManagerState) {
    forall i :: 0 <= i < |m.decisions| && IsRelease(m.decisions[i]) ==>
      IsTrue(m.releases, m.decisions[i].decision.details)
  }

  /** A state manager that has met no recorded marker and scheduled everything in its list after `base`. */
  ghost predicate Tidy(m: ManagerState, base: int) {
    && m.markerIds == {}
    && m.lastEventId.Some?
    && Numbered(m.decisions, base) && TerminalLast(m.decisions) && KnownMarkers(m.decisions) && MarkersTrue(m)
    && (!EndsTerminal(m.decisions) ==> m.lastEventId.value == base + |m.decisions|)
  }

  predicate EndsTerminal(decisions: seq<Entry>) {
    decisions != [] && decisions[|decisions| - 1].decision.Terminal()
  }

  /** Scheduling touches only what was never tracked: the source asks for the `new` state before it sets `requested`. */
  ghost predicate OnlyRequests(t: map<int, Phase>, t': map<int, Phase>) {
    forall id :: PhaseOf(t', id) == PhaseOf(t, id) || (PhaseOf(t, id) == New && PhaseOf(t', id) == Requested)
  }

  /** Code adds releases; it never changes one. */
  ghost predicate Kept(a: Releases, b: Releases) {
    forall key :: key in a ==> key in b && b[key] == a[key]
  }

  /** A release that is first checked live is true. */
  ghost predicate NewOnesTrue(a: Releases, b: Releases) {
    forall key :: key in b && key !in a ==> b[key]
  }

  /** What scheduling never undoes. */
  ghost predicate Keeps(m: ManagerState, m': ManagerState) {
    && m.decisions <= m'.decisions
    && m'.replay == m.replay
    && m'.localTime == m.localTime
    && m'.markerIds == m.markerIds
    && Kept(m.releases, m'.releases) && (m.replay || NewOnesTrue(m.releases, m'.releases))
    && (TerminalLast(m.decisions) ==> TerminalLast(m'.decisions))
    && (forall base :: Tidy(m, base) ==> Tidy(m', base))
  }

  lemma KeepsTransitive(a: ManagerState, b: ManagerState, c: ManagerState)
    requires Keeps(a, b) && Keeps(b, c)
    ensures Keeps(a, c)
  {
  }

  function ScheduleDecision(m: ManagerState, d: Decision): (r: Outcome<Issued>)
    ensures KnownMarker(d) && (ReleaseMarker(d) ==> IsTrue(m.releases, d.details)) ==> Keeps(m, r.state)
    ensures OnlyRequests(m.tracker, r.state.tracker)
  {
    if m.lastEventId.None? then Outcome(m, Err(NilEventId))
    else
      var id := NextFreeId(m.lastEventId.value, m.markerIds);
      var entry := Entry(id, WithDefaultId(d, id));
      var tracker := if PhaseOf(m.tracker, id) == New then m.tracker[id := Requested] else m.tracker;
      var numbered := m.(lastEventId := Some(id), tracker := tracker);
      if EndsTerminal(m.decisions) then Outcome(numbered, Err(WorkflowAlreadyCompleting))
      else
        Outcome(
          numbered.(decisions := m.decisions + [entry]),
          Ok(Issued(TargetOf(entry), CancelationId(entry.decision))))
  }

  /** `release?` with `track_release`: a release first asked about during replay is false for good, live it is true
      and leaves a marker. */
  function CheckRelease(m: ManagerState, name: string): (r: Outcome<bool>)
    ensures Keeps(m, r.state) && OnlyRequests(m.tracker, r.state.tracker)
  {
    var key := Text(name);
    if key in m.releases then Outcome(m, Ok(m.releases[key]))
    else if m.replay then Outcome(m.(releases := m.releases[key := false]), Ok(false))
    else
      var scheduled := ScheduleDecision(m.(releases := m.releases[key := true]), RecordMarker(RELEASE_MARKER, key));
      Outcome(scheduled.state, if scheduled.result.Ok? then Ok(true) else Err(scheduled.result.error))
  }

  /** `Context#side_effect`: the next recorded value, or a drawn one that is recorded. */
  function PerformSideEffect(m: ManagerState, drawn: Value): (r: Outcome<Value>)
    ensures Keeps(m, r.state) && OnlyRequests(m.tracker, r.state.tracker)
  {
    if m.sideEffects != [] then Outcome(m.(sideEffects := m.sideEffects[1..]), Ok(m.sideEffects[0].value))
    else
      var scheduled := ScheduleDecision(m, RecordMarker(SIDE_EFFECT_MARKER, drawn));
      Outcome(scheduled.state, if scheduled.result.Ok? then Ok(drawn) else Err(scheduled.result.error))
  }

  /** `discard_decision`: the recorded command must be the oldest decision still in the list. */
  function Discard(m: ManagerState, target: Target, attributes: Attributes): Result<ManagerState> {
    if m.decisions == [] then Err(NonDeterministicWorkflow)
    else
      var entry := m.decisions[0];
      if target != TargetOf(entry) || attributes != AttributesOf(entry.decision) then Err(NonDeterministicWorkflow)
      else Ok(m.(decisions := m.decisions[1..]))
  }

  /** `handle_marker`. */
  function HandleMarker(m: ManagerState, id: int, name: string, details: Value): Result<ManagerState> {
    var marked := m.(markerIds := m.markerIds + {id});
    if name == SIDE_EFFECT_MARKER then Ok(marked.(sideEffects := m.sideEffects + [SideEffect(id, details)]))
    else if name == RELEASE_MARKER then Ok(marked.(releases := m.releases[details := true]))
    else Err(UnsupportedMarker)
  }

  /** The state-machine method that `apply_event` calls for an event, if any. */
  function PhaseAfter(k: Kind): Option<Phase> {
    match k
    case WorkflowExecutionStarted(_) => Some(Started)
    case ActivityTaskScheduled(_, _, _, _) => Some(Scheduled)
    case ActivityTaskStarted(_) => Some(Started)
    case ActivityTaskCompleted(_, _) => Some(Completed)
    case ActivityTaskFailed(_, _, _) => Some(Failed)
    case ActivityTaskTimedOut(_, _) => Some(TimedOut)
    case ActivityTaskCancelRequested => Some(Requested)
    case RequestCancelActivityTaskFailed(_) => Some(Failed)
    case ActivityTaskCanceled(_, _) => Some(Canceled)
    case TimerStarted => Some(Started)
    case TimerFired(_) => Some(Completed)
    case TimerCanceled => Some(Canceled)
    case MarkerRecorded(_, _) => Some(Completed)
    case StartChildWorkflowExecutionInitiated => Some(Scheduled)
    case StartChildWorkflowExecutionFailed(_, _) => Some(Failed)
    case ChildWorkflowExecutionStarted(_) => Some(Started)
    case ChildWorkflowExecutionCompleted(_, _) => Some(Completed)
    case ChildWorkflowExecutionFailed(_, _, _) => Some(Failed)
    case ChildWorkflowExecutionCanceled(_, _) => Some(Canceled)
    case ChildWorkflowExecutionTimedOut(_, _) => Some(TimedOut)
    case _ => None
  }

  /** What `apply_event` does to the state manager itself, before anything is dispatched. `CancelTimerFailed` calls a
      state-machine method that does not exist. */
  function Absorb(m: ManagerState, e: Event): Result<ManagerState> {
    if e.kind.Unsupported? then Err(UnsupportedEvent)
    else if e.kind.CancelTimerFailed? || (e.kind.Other? && e.kind.other.LacksScheduledId()) then Err(NoSuchMethod)
    else
      var phase := PhaseAfter(e.kind);
      var tracked := if phase.Some? then m.(tracker := m.tracker[e.DecisionId() := phase.value]) else m;
      if e.kind.Discards() then Discard(tracked, e.Target(), e.Attributes())
      else if e.kind.MarkerRecorded? then HandleMarker(tracked, e.id, e.kind.markerName, e.kind.details)
      else Ok(tracked)
  }

  // ----- The object -----

  /** `Workflow::StateManager`. */
  class StateManager {
    var decisions: seq<Entry>
    var markerIds: set<int>
    var releases: Releases
    var sideEffects: seq<SideEffect>
    var tracker: map<int, Phase>
    var lastEventId: Option<int>
    var localTime: Option<int>
    var replay: bool

    function View(): ManagerState
      reads this
    {
      ManagerState(decisions, markerIds, releases, sideEffects, tracker, lastEventId, localTime, replay)
    }

    constructor ()
      ensures View() == FRESH_MANAGER
    {
      decisions, markerIds, releases, sideEffects := [], {}, map[], [];
      tracker, lastEventId, localTime, replay := map[], Some(0), None, false;
    }

    /** `schedule`: the skip loop ends at the least free id, because only finitely many markers lie above the counter.
        */
    method Schedule(d: Decision) returns (r: Result<Issued>)
      modifies this
      ensures View() == ScheduleDecision(old(View()), d).state
      ensures r == ScheduleDecision(old(View()), d).result
    {
      if lastEventId.None? {
        return Err(NilEventId);
      }
      var id := lastEventId.value + 1;
      while id in markerIds
        invariant NextFreeId(id - 1, markerIds) == NextFreeId(lastEventId.value, markerIds)
        decreases Above(id - 1, markerIds)
      {
        assert id in Above(id - 1, markerIds) && id !in Above(id, markerIds);
        id := id + 1;
      }
      lastEventId := Some(id);
      var decision := WithDefaultId(d, id);
      if PhaseOf(tracker, id) == New {
        tracker := tracker[id := Requested];
      }
      if EndsTerminal(decisions) {
        return Err(WorkflowAlreadyCompleting);
      }
      decisions := decisions + [Entry(id, decision)];
      return Ok(Issued(TargetOf(Entry(id, decision)), CancelationId(decision)));
    }

    method Release(name: string) returns (r: Result<bool>)
      modifies this
      ensures View() == CheckRelease(old(View()), name).state
      ensures r == CheckRelease(old(View()), name).result
    {
      var key := Text(name);
      if key !in releases {
        if replay {
          releases := releases[key := false];
        } else {
          releases := releases[key := true];
          var scheduled := Schedule(RecordMarker(RELEASE_MARKER, key));
          if scheduled.Err? {
            return Err(scheduled.error);
          }
        }
      }
      return Ok(releases[key]);
    }

    method NextSideEffect() returns (r: Option<SideEffect>)
      modifies this`sideEffects
      ensures old(sideEffects) == [] ==> r == None && sideEffects == []
      ensures old(sideEffects) != [] ==> r == Some(old(sideEffects)[0]) && sideEffects == old(sideEffects)[1..]
    {
      if sideEffects == [] {
        return None;
      }
      r := Some(sideEffects[0]);
      sideEffects := sideEffects[1..];
    }

    /** The part of `apply_event` that concerns the state manager. */
    method AbsorbEvent(e: Event) returns (r: Result<()>)
      modifies this
      ensures r.Ok? <==> Absorb(old(View()), e).Ok?
      ensures r.Ok? ==> Absorb(old(View()), e) == Ok(View())
      ensures r.Err? ==> Absorb(old(View()), e) == Err(r.error)
    {
      if e.kind.Unsupported? {
        return Err(UnsupportedEvent);
      }
      if e.kind.CancelTimerFailed? || (e.kind.Other? && e.kind.other.LacksScheduledId()) {
        return Err(NoSuchMethod);
      }
      var phase := PhaseAfter(e.kind);
      if phase.Some? {
        tracker := tracker[e.DecisionId() := phase.value];
      }
      if e.kind.Discards() {
        r := DiscardDecision(e.Target(), e.Attributes());
      } else if e.kind.MarkerRecorded? {
        r := RecordedMarker(e.id, e.kind.markerName, e.kind.details);
      } else {
        r := Ok(());
      }
    }

    method DiscardDecision(target: Target, attributes: Attributes) returns (r: Result<()>)
      modifies this
      ensures r.Ok? ==> Discard(old(View()), target, attributes) == Ok(View())
      ensures r.Err? ==> Discard(old(View()), target, attributes) == Err(r.error)
    {
      if decisions == [] {
        return Err(NonDeterministicWorkflow);
      }
      var existing := decisions[0];
      decisions := decisions[1..];
      if target != TargetOf(existing) || attributes != AttributesOf(existing.decision) {
        return Err(NonDeterministicWorkflow);
      }
      return Ok(());
    }

    method RecordedMarker(id: int, name: string, details: Value) returns (r: Result<()>)
      modifies this
      ensures r.Ok? ==> HandleMarker(old(View()), id, name, details) == Ok(View())
      ensures r.Err? ==> HandleMarker(old(View()), id, name, details) == Err(r.error)
    {
      markerIds := markerIds + {id};
      if name == SIDE_EFFECT_MARKER {
        sideEffects := sideEffects + [SideEffect(id, details)];
      } else if name == RELEASE_MARKER {
        releases := releases[details := true];
      } else {
        return Err(UnsupportedMarker);
      }
      return Ok(());
    }
  }
}
