/** Choosing the event that a workflow is reset to: `find_decision_task` and `reset_workflow` of
    `lib/cadence/client.rb`. */
module ResetPoints {
  import opened Base
  import opened Decisions
  import opened Events
  import opened Histories
  import opened StateManagers
  import opened Engine
  import opened Protocol
  import opened Windows
  import opened Replay
  import CompletionRouting
  import opened TypeNames

  datatype Strategy = LastDecisionTask | FirstDecisionTask | LastFailedActivity | OtherStrategy

  /** `find_event_by_id`. */
  function FindEventById(h: seq<Event>, id: int): Option<Event> {
    if h == [] then None else if h[0].id == id then Some(h[0]) else FindEventById(h[1..], id)
  }

  /** The events whose type name occurs in the text. */
  function Listed(h: seq<Event>, names: string): seq<Event> {
    if h == [] then []
    else
      var last := h[|h| - 1];
      Listed(h[..|h| - 1], names) + (if Includes(names, NameOf(last.kind)) then [last] else [])
  }

  function Last(es: seq<Event>): Option<Event> {
    if es == [] then None else Some(es[|es| - 1])
  }

  /** The id that an activity's outcome quotes; other events do not have the attribute. */
  function ScheduledEventId(k: Kind): Option<int> {
    match k
    case ActivityTaskFailed(id, _, _) => Some(id)
    case ActivityTaskTimedOut(id, _) => Some(id)
    case _ => None
  }

  function FindDecisionTask(h: seq<Event>, strategy: Strategy): Result<Option<Event>> {
    match strategy
    case LastDecisionTask => Ok(Last(Listed(h, DECISION_END_NAMES)))
    case FirstDecisionTask =>
      var ends := Listed(h, DECISION_END_NAMES);
      Ok(if ends == [] then None else Some(ends[0]))
    case LastFailedActivity =>
      var failed := Last(Listed(h, ACTIVITY_FAILURE_NAMES));
      if failed.None? then Ok(None)
      else
        var id := ScheduledEventId(failed.value.kind);
        var scheduled := if id.Some? then FindEventById(h, id.value) else None;
        if scheduled.None? || !scheduled.value.kind.ActivityTaskScheduled? then Err(NoSuchMethod)
        else Ok(FindEventById(h, scheduled.value.kind.decisionTaskCompletedEventId))
    case OtherStrategy => Err(ArgumentMismatch)
  }

  /** The event id that `reset_workflow` sends to the server. */
  function ResetTarget(h: seq<Event>, strategy: Option<Strategy>, decisionTaskId: Option<int>): Result<int> {
    var chosen := if strategy.None? && decisionTaskId.None? then Some(LastDecisionTask) else strategy;
    if chosen.Some? && decisionTaskId.Some? then Err(ArgumentMismatch)
    else if decisionTaskId.Some? then Ok(decisionTaskId.value)
    else
      var found :- FindDecisionTask(h, chosen.value);
      if found.None? then Err(NothingToResetTo) else Ok(found.value.id)
  }

  // ----- Searching -----

  lemma {:induction false} FindByPosition(h: seq<Event>, first: int, id: int)
    requires forall i :: 0 <= i < |h| ==> h[i].id == first + i
    ensures FindEventById(h, id) == if first <= id < first + |h| then Some(h[id - first]) else None
  {
    if h != [] {
      FindByPosition(h[1..], first + 1, id);
    }
  }

  predicate FirstAt(h: seq<Event>, names: string, i: nat) {
    i < |h| && Includes(names, NameOf(h[i].kind)) && forall k :: 0 <= k < i ==> !Includes(names, NameOf(h[k].kind))
  }

  predicate LastAt(h: seq<Event>, names: string, j: nat) {
    j < |h| && Includes(names, NameOf(h[j].kind)) && forall k :: j < k < |h| ==> !Includes(names, NameOf(h[k].kind))
  }

  /** The first and the last event listed are the first and the last in the history that belong there. */
  lemma {:induction false} ListedEnds(h: seq<Event>, names: string) returns (i: nat, j: nat)
    ensures Listed(h, names) == [] ==> forall k :: 0 <= k < |h| ==> !Includes(names, NameOf(h[k].kind))
    ensures Listed(h, names) != [] ==>
      && FirstAt(h, names, i) && Listed(h, names)[0] == h[i]
      && LastAt(h, names, j) && Last(Listed(h, names)) == Some(h[j])
  {
    hide Includes, NameOf;
    i, j := 0, 0;
    if h != [] {
      var front, last := h[..|h| - 1], h[|h| - 1];
      i, j := ListedEnds(front, names);
      if Includes(names, NameOf(last.kind)) {
        i, j := if Listed(front, names) == [] then |h| - 1 else i, |h| - 1;
      }
    }
  }

  // ----- Which round scheduled an activity -----

  /** Event `i` of the history is the command event of an activity that round `n` scheduled, and it quotes the
      completion event of that round's decision task. */
  ghost predicate ScheduledIn(code: Code, budget: nat, rounds: seq<Round>, h: seq<Event>, i: nat, n: nat) {
    && n < |rounds|
    && KeptRun(START, code, budget, rounds[..n]).Ok? && KeptRun(START, code, budget, rounds[..n + 1]).Ok?
    && var before := KeptRun(START, code, budget, rounds[..n]).value;
       var after := KeptRun(START, code, budget, rounds[..n + 1]).value;
       var base := BaseId(before.history, rounds[n]);
       && 0 < base <= i < |h|
       && h[i].kind.ActivityTaskScheduled? && h[i].kind.decisionTaskCompletedEventId == base
       && h[base - 1] == Event(base, DecisionTaskCompleted)
       && exists e :: e in after.issued && e.id == i + 1 && e.decision.ScheduleActivity?
  }

  /** Only a command event schedules an activity, and it quotes the completion event of its own task. */
  lemma SegmentSchedules(h: seq<Event>, r: Round, es: seq<Entry>, i: nat)
    requires ValidRound(r) && Numbered(es, BaseId(h, r))
    requires |h| <= i < |h + Segment(h, r, es)| && (h + Segment(h, r, es))[i].kind.ActivityTaskScheduled?
    ensures
      var h', base := h + Segment(h, r, es), BaseId(h, r);
      && 0 < base <= i < |h'| && h'[i].kind.decisionTaskCompletedEventId == base
      && h'[base - 1] == Event(base, DecisionTaskCompleted)
      && exists e :: e in es && e.id == i + 1 && e.decision.ScheduleActivity?
  {
    var h', base := h + Segment(h, r, es), BaseId(h, r);
    hide Segment;
    SegmentAt(h, r, es);
    assert base <= i < base + |es| && h'[i].kind == ReplyTo(es[i - base], base, r);
    assert es[i - base] in es;
  }

  lemma {:induction false} SchedulerOf(code: Code, budget: nat, rounds: seq<Round>, i: nat) returns (n: nat)
    requires ValidRounds(rounds) && KeptRun(START, code, budget, rounds).Ok?
    requires i < |KeptRun(START, code, budget, rounds).value.history|
    requires KeptRun(START, code, budget, rounds).value.history[i].kind.ActivityTaskScheduled?
    ensures ScheduledIn(code, budget, rounds, KeptRun(START, code, budget, rounds).value.history, i, n)
    decreases |rounds|
  {
    hide *;
    SomeRound(code, budget, rounds);
    LastRound(START, code, budget, rounds);
    var front, r := rounds[..|rounds| - 1], rounds[|rounds| - 1];
    var prior, kept := KeptRun(START, code, budget, front).value, KeptRun(START, code, budget, rounds).value;
    if i < |prior.history| {
      n := SchedulerOf(code, budget, front, i);
      WithinRun(code, budget, front, prior.history, i, n);
      assert rounds[..n] == front[..n] && rounds[..n + 1] == front[..n + 1];
      ScheduledLater(code, budget, front, rounds, prior.history, kept.history, i, n);
    } else {
      n := |rounds| - 1;
      assert rounds[..n + 1] == rounds;
      IdsArePredicted(code, budget, rounds);
      SegmentSchedules(prior.history, r, kept.issued, i);
      ScheduledNow(code, budget, rounds, i);
    }
  }

  lemma SomeRound(code: Code, budget: nat, rounds: seq<Round>)
    requires ValidRounds(rounds) && KeptRun(START, code, budget, rounds).Ok?
    requires KeptRun(START, code, budget, rounds).value.history != []
    ensures rounds != [] && ValidRounds(rounds[..|rounds| - 1]) && ValidRound(rounds[|rounds| - 1])
  {
    hide ValidRound;
  }

  lemma WithinRun(code: Code, budget: nat, rounds: seq<Round>, h: seq<Event>, i: nat, n: nat)
    requires ScheduledIn(code, budget, rounds, h, i, n)
    ensures n < |rounds|
  {
  }

  /** The command event of an activity among those of the last round. */
  lemma ScheduledNow(code: Code, budget: nat, rounds: seq<Round>, i: nat)
    requires rounds != [] && KeptRun(START, code, budget, rounds).Ok?
    requires KeptRun(START, code, budget, rounds[..|rounds| - 1]).Ok?
    requires
      var n := |rounds| - 1;
      var before, after := KeptRun(START, code, budget, rounds[..n]).value, KeptRun(START, code, budget, rounds).value;
      var base := BaseId(before.history, rounds[n]);
      && 0 < base <= i < |after.history|
      && after.history[i].kind.ActivityTaskScheduled?
      && after.history[i].kind.decisionTaskCompletedEventId == base
      && after.history[base - 1] == Event(base, DecisionTaskCompleted)
      && exists e :: e in after.issued && e.id == i + 1 && e.decision.ScheduleActivity?
    ensures ScheduledIn(code, budget, rounds, KeptRun(START, code, budget, rounds).value.history, i, |rounds| - 1)
  {
    hide KeptRun, BaseId;
    assert rounds[..|rounds| - 1 + 1] == rounds;
  }

  lemma ScheduledLater(code: Code, budget: nat, front: seq<Round>, rounds: seq<Round>, h: seq<Event>, h': seq<Event>,
                       i: nat, n: nat)
    requires ScheduledIn(code, budget, front, h, i, n) && h <= h' && front <= rounds
    requires rounds[..n] == front[..n] && rounds[..n + 1] == front[..n + 1]
    ensures ScheduledIn(code, budget, rounds, h', i, n)
  {
    hide KeptRun, BaseId;
  }

  // ----- The theorem -----

  predicate AllSupported(h: seq<Event>) {
    forall i :: 0 <= i < |h| ==> !h[i].kind.Unsupported?
  }

  lemma UnsupportedRefused(env: Env, m: Machine, e: Event)
    requires ApplyEvent(env, m, e).Ok?
    ensures !e.kind.Unsupported?
  {
    hide Announce;
  }

  lemma {:induction false} AppliedAreSupported(env: Env, m: Machine, es: seq<Event>)
    requires ApplyEvents(env, m, es).Ok?
    ensures AllSupported(es)
  {
    hide ApplyEvent;
    if es != [] {
      UnsupportedRefused(env, ApplyEvents(env, m, es[..|es| - 1]).value, es[|es| - 1]);
      AppliedAreSupported(env, m, es[..|es| - 1]);
    }
  }

  lemma {:induction false} HandedSupported(es: seq<Event>)
    requires AllSupported(Handed(es))
    ensures AllSupported(es)
  {
    if es != [] {
      var front, last := es[..|es| - 1], es[|es| - 1];
      var tail := if last.kind.Bookkeeping() || last.kind.MarkerRecorded? then [] else [last];
      assert Handed(es) == Handed(front) + tail;
      assert forall i :: 0 <= i < |Handed(front)| ==> Handed(es)[i] == Handed(front)[i];
      assert tail != [] ==> Handed(es)[|Handed(front)|] == last;
      HandedSupported(front);
    }
  }

  lemma SegmentSupported(h: seq<Event>, r: Round, es: seq<Entry>)
    requires AllSupported(h) && AllSupported(NewEvents(h, r))
    ensures AllSupported(h + Segment(h, r, es))
  {
  }

  /** An event of a type that `apply_event` does not know fails the task, so no completed run has one. */
  lemma {:induction false} HistorySupported(code: Code, budget: nat, rounds: seq<Round>)
    requires ValidRounds(rounds) && KeptRun(START, code, budget, rounds).Ok?
    ensures AllSupported(KeptRun(START, code, budget, rounds).value.history)
    decreases |rounds|
  {
    if rounds != [] {
      var front, r := rounds[..|rounds| - 1], rounds[|rounds| - 1];
      var prior, kept := KeptRun(START, code, budget, front).value, KeptRun(START, code, budget, rounds).value;
      HistorySupported(code, budget, front);
      hide Collect, ApplyEvents;
      var env, w := Env(code, r.oracle, budget), Collect(NewEvents(prior.history, r));
      var entered := Entered(Accepted(prior.machine), w);
      NewWindow(prior.history, r);
      NothingApplied(env, entered);
      AppliedAreSupported(env, entered, w.events);
      CompletionRouting.CollectHanded(NewEvents(prior.history, r));
      HandedSupported(NewEvents(prior.history, r));
      SegmentSupported(prior.history, r, kept.issued);
    }
  }

  lemma NothingApplied(env: Env, m: Machine)
    ensures ApplyEvents(env, m, []) == Ok(m)
  {
  }

  /** The server reports the failure of an activity under the id of the event that scheduled it. */
  predicate FailuresAnswerActivities(h: seq<Event>) {
    forall j :: 0 <= j < |h| && FailsActivity(h[j].kind) ==>
      var id := h[j].kind.scheduledEventId;
      0 < id <= j && h[id - 1].kind.ActivityTaskScheduled?
  }

  /** Event `j` is the last report of a failed or timed-out activity. */
  predicate LastFailureAt(h: seq<Event>, j: nat) {
    j < |h| && FailsActivity(h[j].kind) && forall k :: j < k < |h| ==> !FailsActivity(h[k].kind)
  }

  /** The reset target answers failure `j`: it completes the decision task of round `n`, which scheduled that
      activity. */
  ghost predicate Answers(code: Code, budget: nat, rounds: seq<Round>, h: seq<Event>, target: Event, j: nat, n: nat) {
    && LastFailureAt(h, j)
    && h[j].kind.scheduledEventId > 0
    && ScheduledIn(code, budget, rounds, h, h[j].kind.scheduledEventId - 1, n)
    && var base := BaseId(KeptRun(START, code, budget, rounds[..n]).value.history, rounds[n]);
       target == Event(base, DecisionTaskCompleted)
  }

  /** The target lies between those of the other two strategies. */
  predicate Between(h: seq<Event>, target: Event) {
    match (FindDecisionTask(h, FirstDecisionTask), FindDecisionTask(h, LastDecisionTask))
    case (Ok(Some(first)), Ok(Some(last))) => first.id <= target.id <= last.id
    case _ => false
  }

  /** What the server wrote after the last completed decision task: outcomes, signals, failed attempts, the end. */
  ghost predicate Aftermath(h: seq<Event>, tail: seq<Kind>, full: seq<Event>) {
    && (forall i :: 0 <= i < |tail| ==> External(tail[i]) && !tail[i].Unsupported?)
    && full == h + Numbering(|h| + 1, tail)
  }

  /** Resetting to the last failed activity. In every history that the protocol writes, whatever came after the last
      completed task, the strategy finds nothing exactly when no activity failed; otherwise it finds the completion
      event of the very decision task whose decisions scheduled the activity that failed last, and that event lies
      between those of the other two strategies. */
  lemma LastFailedActivityReset(code: Code, budget: nat, rounds: seq<Round>, tail: seq<Kind>, h: seq<Event>)
    requires ValidRounds(rounds) && KeptRun(START, code, budget, rounds).Ok?
    requires Aftermath(KeptRun(START, code, budget, rounds).value.history, tail, h)
    requires FailuresAnswerActivities(h)
    ensures
      match FindDecisionTask(h, LastFailedActivity)
      case Err(_) => false
      case Ok(None) => forall j :: 0 <= j < |h| ==> !FailsActivity(h[j].kind)
      case Ok(Some(e)) => (exists j, n :: Answers(code, budget, rounds, h, e, j, n)) && Between(h, e)
  {
    hide KeptRun, BaseId, NameOf, Includes, FailsActivity, AllSupported, Aftermath, Between, ScheduledIn;
    var recorded := KeptRun(START, code, budget, rounds).value.history;
    HistorySupported(code, budget, rounds);
    HistoryConsecutive(code, budget, rounds);
    AftermathAdds(recorded, tail, h);
    var j := LastFailure(h);
    if Listed(h, ACTIVITY_FAILURE_NAMES) != [] {
      var i := h[j].kind.scheduledEventId - 1;
      assert i < |recorded| && recorded[i] == h[i];
      var n := SchedulerOf(code, budget, rounds, i);
      ScheduledLater(code, budget, rounds, rounds, recorded, h, i, n);
      var base := h[i].kind.decisionTaskCompletedEventId;
      ScheduledFacts(code, budget, rounds, h, i, n);
      FindByPosition(h, 1, i + 1);
      FindByPosition(h, 1, base);
      EndsBracket(h, base - 1);
      assert Answers(code, budget, rounds, h, h[base - 1], j, n);
    }
  }

  lemma ScheduledFacts(code: Code, budget: nat, rounds: seq<Round>, h: seq<Event>, i: nat, n: nat)
    requires ScheduledIn(code, budget, rounds, h, i, n)
    ensures i < |h| && h[i].kind.ActivityTaskScheduled? && n < |rounds| && KeptRun(START, code, budget, rounds[..n]).Ok?
    ensures
      var base := h[i].kind.decisionTaskCompletedEventId;
      && 0 < base <= |h| && h[base - 1] == Event(base, DecisionTaskCompleted)
      && base == BaseId(KeptRun(START, code, budget, rounds[..n]).value.history, rounds[n])
  {
    hide KeptRun, BaseId;
  }

  lemma AftermathAdds(h: seq<Event>, tail: seq<Kind>, full: seq<Event>)
    requires Aftermath(h, tail, full) && AllSupported(h) && Consecutive(h)
    ensures AllSupported(full) && Consecutive(full) && h <= full
    ensures forall i :: 0 <= i < |full| && full[i].kind.ActivityTaskScheduled? ==> i < |h|
  {
  }

  lemma LastFailure(h: seq<Event>) returns (j: nat)
    requires AllSupported(h)
    ensures Listed(h, ACTIVITY_FAILURE_NAMES) == [] ==> forall k :: 0 <= k < |h| ==> !FailsActivity(h[k].kind)
    ensures Listed(h, ACTIVITY_FAILURE_NAMES) != [] ==>
      && LastFailureAt(h, j) && Last(Listed(h, ACTIVITY_FAILURE_NAMES)) == Some(h[j])
      && ScheduledEventId(h[j].kind).Some?
  {
    hide NameOf, Includes;
    var i;
    i, j := ListedEnds(h, ACTIVITY_FAILURE_NAMES);
    forall k | 0 <= k < |h|
      ensures Includes(ACTIVITY_FAILURE_NAMES, NameOf(h[k].kind)) <==> FailsActivity(h[k].kind)
    {
      SearchIsMembership(h[k].kind);
    }
  }

  /** The first and the last end of a decision task enclose every other. */
  lemma EndsBracket(h: seq<Event>, k: nat)
    requires Consecutive(h) && k < |h| && EndsDecision(h[k].kind)
    ensures Between(h, h[k])
  {
    hide NameOf, Includes;
    var i, j := ListedEnds(h, DECISION_END_NAMES);
    SearchIsMembership(h[k].kind);
  }

  /** The target is where the last decision task ended; without one the call raises. */
  predicate ResetsToLast(h: seq<Event>, r: Result<int>) {
    match r
    case Ok(id) =>
      && 0 < id <= |h| && EndsDecision(h[id - 1].kind)
      && forall k :: id <= k < |h| ==> !EndsDecision(h[k].kind)
    case Err(e) => e == NothingToResetTo && forall k :: 0 <= k < |h| ==> !EndsDecision(h[k].kind)
  }

  predicate ResetsToFirst(h: seq<Event>, r: Result<int>) {
    match r
    case Ok(id) =>
      && 0 < id <= |h| && EndsDecision(h[id - 1].kind)
      && forall k :: 0 <= k < id - 1 ==> !EndsDecision(h[k].kind)
    case Err(e) => e == NothingToResetTo && forall k :: 0 <= k < |h| ==> !EndsDecision(h[k].kind)
  }

  predicate Within(h: seq<Event>, id: int) { 0 < id <= |h| }

  /** The last failure decides: without one there is no target; if it quotes no scheduling event the call raises on a
      missing attribute; otherwise the target is what that event quotes, if the history has it. */
  ghost predicate ResetsToFailed(h: seq<Event>, r: Result<int>) {
    if exists j: nat :: LastFailureAt(h, j) then
      exists j: nat :: LastFailureAt(h, j) && (
        var id := h[j].kind.scheduledEventId;
        if !Within(h, id) || !h[id - 1].kind.ActivityTaskScheduled? then r == Err(NoSuchMethod)
        else
          var completed := h[id - 1].kind.decisionTaskCompletedEventId;
          r == if Within(h, completed) then Ok(completed) else Err(NothingToResetTo))
    else
      r == Err(NothingToResetTo)
  }

  /** `reset_workflow` in full, over any history of known event types: an id and a strategy exclude each other; an id
      alone is taken as it is; and each strategy, the last decision task by default, sends what it is named for. */
  lemma ResetWorkflow(h: seq<Event>, strategy: Option<Strategy>, id: Option<int>)
    requires AllSupported(h) && Consecutive(h)
    ensures
      var r := ResetTarget(h, strategy, id);
      match (strategy, id)
      case (Some(_), Some(_)) => r == Err(ArgumentMismatch)
      case (None, Some(given)) => r == Ok(given)
      case (Some(OtherStrategy), None) => r == Err(ArgumentMismatch)
      case (Some(FirstDecisionTask), None) => ResetsToFirst(h, r)
      case (Some(LastFailedActivity), None) => ResetsToFailed(h, r)
      case _ => ResetsToLast(h, r)
  {
    if id.None? {
      hide NameOf, Includes;
      if strategy == Some(LastFailedActivity) {
        FailedTarget(h);
      } else if strategy != Some(OtherStrategy) {
        EndTargets(h);
      }
    }
  }

  lemma EndTargets(h: seq<Event>)
    requires AllSupported(h) && Consecutive(h)
    ensures ResetsToLast(h, ResetTarget(h, Some(LastDecisionTask), None))
    ensures ResetsToFirst(h, ResetTarget(h, Some(FirstDecisionTask), None))
  {
    hide NameOf, Includes, EndsDecision;
    var i, j := ListedEnds(h, DECISION_END_NAMES);
    forall k | 0 <= k < |h|
      ensures Includes(DECISION_END_NAMES, NameOf(h[k].kind)) <==> EndsDecision(h[k].kind)
    {
      SearchIsMembership(h[k].kind);
    }
  }

  lemma FailedTarget(h: seq<Event>)
    requires AllSupported(h) && Consecutive(h)
    ensures ResetsToFailed(h, ResetTarget(h, Some(LastFailedActivity), None))
  {
    hide NameOf, Includes, FailsActivity;
    var j := LastFailure(h);
    if Listed(h, ACTIVITY_FAILURE_NAMES) != [] {
      var id := h[j].kind.scheduledEventId;
      FindByPosition(h, 1, id);
      if Within(h, id) && h[id - 1].kind.ActivityTaskScheduled? {
        FindByPosition(h, 1, h[id - 1].kind.decisionTaskCompletedEventId);
      }
    }
  }
}
