/** Cutting a history into windows: `lib/cadence/workflow/history.rb`, `history/window.rb` and the paging of
    `decision_task_processor.rb`. */
module Histories {
  import opened Base
  import opened Events

  /** What one history window tells the state manager. */
  datatype WindowState = WindowState(
    replay: bool,
    localTime: Option<int>,
    lastEventId: Option<int>,
    events: seq<Event>,
    markers: seq<Event>)

  const EMPTY_WINDOW := WindowState(false, None, None, [], [])

  /** `Window#add`. A failed or timed-out decision task clears the local time but not the id base. */
  function AddEvent(w: WindowState, e: Event): WindowState {
    match e.kind
    case MarkerRecorded(_, _) => w.(markers := w.markers + [e])
    case DecisionTaskStarted(t) => w.(lastEventId := Some(e.id + 1), localTime := Some(t))
    case DecisionTaskFailed => w.(localTime := None)
    case DecisionTaskTimedOut => w.(localTime := None)
    case DecisionTaskCompleted => w.(replay := true)
    case DecisionTaskScheduled => w
    case _ => w.(events := w.events + [e])
  }

  /** The window made of the given consecutive events. */
  function Collect(segment: seq<Event>): WindowState {
    if segment == [] then EMPTY_WINDOW
    else AddEvent(Collect(segment[..|segment| - 1]), segment[|segment| - 1])
  }

  lemma CollectSnoc(segment: seq<Event>, e: Event)
    ensures Collect(segment + [e]) == AddEvent(Collect(segment), e)
  {
    assert (segment + [e])[..|segment|] == segment;
  }

  /** Event `i` is the last start of a decision task in the segment. */
  predicate LastStart(segment: seq<Event>, i: nat) {
    && i < |segment| && segment[i].kind.DecisionTaskStarted?
    && forall k :: i < k < |segment| ==> !segment[k].kind.DecisionTaskStarted?
  }

  /** An attempt at the task failed or timed out after event `i`. */
  predicate FailedSince(segment: seq<Event>, i: nat) {
    exists k :: i < k < |segment| && (segment[k].kind.DecisionTaskFailed? || segment[k].kind.DecisionTaskTimedOut?)
  }

  /** A window is a replay exactly if its decision task was completed. */
  lemma {:induction false} ReplayWindow(segment: seq<Event>)
    ensures Collect(segment).replay <==> exists i :: 0 <= i < |segment| && segment[i].kind.DecisionTaskCompleted?
  {
    if segment != [] {
      var front, last := segment[..|segment| - 1], segment[|segment| - 1];
      ReplayWindow(front);
      assert forall i :: 0 <= i < |front| ==> segment[i] == front[i];
    }
  }

  /** The id base of a window is that of the last start of its task, and so is the clock, unless that attempt failed. */
  lemma {:induction false} ClockOfWindow(segment: seq<Event>, i: nat)
    requires LastStart(segment, i)
    ensures Collect(segment).lastEventId == Some(segment[i].id + 1)
    ensures Collect(segment).localTime == if FailedSince(segment, i) then None else Some(segment[i].kind.timestamp)
  {
    var front, last := segment[..|segment| - 1], segment[|segment| - 1];
    if i < |front| {
      assert forall k :: 0 <= k < |front| ==> segment[k] == front[k];
      ClockOfWindow(front, i);
      FailedLater(front, last, i);
      assert front + [last] == segment;
      hide FailedSince, Collect;
      CollectSnoc(front, last);
    }
  }

  lemma FailedLater(segment: seq<Event>, e: Event, i: nat)
    requires i < |segment|
    ensures
      FailedSince(segment + [e], i)
      <==> FailedSince(segment, i) || e.kind.DecisionTaskFailed? || e.kind.DecisionTaskTimedOut?
  {
    var more := segment + [e];
    assert more[|segment|] == e && forall k :: 0 <= k < |segment| ==> more[k] == segment[k];
  }

  /** How many events are read up to and including the first completed decision task. */
  function UntilCompleted(h: seq<Event>): (n: nat)
    ensures n <= |h|
    ensures h != [] ==> n > 0
  {
    if h == [] then 0
    else if h[0].kind.DecisionTaskCompleted? then 1
    else 1 + UntilCompleted(h[1..])
  }

  /** An event of any other kind than the eleven that record what a decision task issued, so one that is never read into
      the window of the task before it. */
  predicate OpensWindow(k: Kind) {
    match k
    case ActivityTaskScheduled(_, _, _, _) => false
    case ActivityTaskCancelRequested => false
    case RequestCancelActivityTaskFailed(_) => false
    case TimerStarted => false
    case TimerCanceled => false
    case CancelTimerFailed(_) => false
    case MarkerRecorded(_, _) => false
    case StartChildWorkflowExecutionInitiated => false
    case WorkflowExecutionCancelRequested => false
    case Other(SignalExternalWorkflowExecutionInitiated) => false
    case Other(RequestCancelExternalWorkflowExecutionInitiated) => false
    case _ => true
  }

  /** How many command events follow at the front of the history. */
  function CommandRun(h: seq<Event>): (n: nat)
    ensures n <= |h|
  {
    if h == [] || !h[0].kind.Command() then 0 else 1 + CommandRun(h[1..])
  }

  /** How many events `next_window` takes. */
  function WindowLength(h: seq<Event>): (n: nat)
    ensures n <= |h|
    ensures h != [] ==> n > 0
  {
    var decided := UntilCompleted(h);
    decided + CommandRun(h[decided..])
  }

  /** The consecutive segments that repeated calls of `next_window` turn into windows. */
  function Split(h: seq<Event>): seq<seq<Event>> {
    if h == [] then [] else [h[..WindowLength(h)]] + Split(h[WindowLength(h)..])
  }

  function Flatten<T>(ss: seq<seq<T>>): seq<T> {
    if ss == [] then [] else ss[0] + Flatten(ss[1..])
  }

  /** The windows partition the history: nothing is lost, repeated or reordered, and every window is non-empty. */
  lemma {:induction false} WindowsPartitionHistory(h: seq<Event>)
    ensures Flatten(Split(h)) == h
    ensures forall i :: 0 <= i < |Split(h)| ==> Split(h)[i] != []
  {
    hide *;
    if h == [] {
      NoWindows(h);
    } else {
      var first, rest := h[..WindowLength(h)], h[WindowLength(h)..];
      assert h == first + rest;
      WindowsPartitionHistory(rest);
      SplitCons(h, first, rest);
      FlattenCons(first, Split(rest));
    }
  }

  lemma NoWindows(h: seq<Event>)
    requires h == []
    ensures Split(h) == [] && Flatten(Split(h)) == []
  {
  }

  lemma FlattenCons<T>(first: seq<T>, rest: seq<seq<T>>)
    ensures Flatten([first] + rest) == first + Flatten(rest)
  {
    assert ([first] + rest)[1..] == rest;
  }

  /** A history all of whose windows contain a completed decision task. */
  predicate AllDecided(h: seq<Event>) {
    h == [] || (UntilCompleted(h) > 0 && h[UntilCompleted(h) - 1].kind.DecisionTaskCompleted?
        && AllDecided(h[WindowLength(h)..]))
  }

  /** Windows of completed decision tasks only. */
  predicate AllRecorded(segments: seq<seq<Event>>) {
    forall i :: 0 <= i < |segments| ==> Collect(segments[i]).replay
  }

  /** What `next_window` reads first does not depend on what follows a completed decision task. */
  lemma {:induction false} UntilCompletedAppend(h: seq<Event>, tail: seq<Event>)
    requires h != [] && h[UntilCompleted(h) - 1].kind.DecisionTaskCompleted?
    ensures UntilCompleted(h + tail) == UntilCompleted(h)
  {
    if !h[0].kind.DecisionTaskCompleted? {
      assert h[1..] + tail == (h + tail)[1..];
      UntilCompletedAppend(h[1..], tail);
    }
  }

  lemma {:induction false} CommandRunAppend(h: seq<Event>, tail: seq<Event>)
    requires tail == [] || OpensWindow(tail[0].kind)
    ensures CommandRun(h + tail) == CommandRun(h)
  {
    if h == [] {
      assert h + tail == tail;
    } else {
      assert h[1..] + tail == (h + tail)[1..];
      CommandRunAppend(h[1..], tail);
    }
  }

  lemma WindowLengthAppend(h: seq<Event>, tail: seq<Event>)
    requires h != [] && h[UntilCompleted(h) - 1].kind.DecisionTaskCompleted?
    requires tail == [] || OpensWindow(tail[0].kind)
    ensures WindowLength(h + tail) == WindowLength(h)
  {
    hide UntilCompleted, CommandRun;
    UntilCompletedAppend(h, tail);
    var n := UntilCompleted(h);
    assert (h + tail)[n..] == h[n..] + tail;
    CommandRunAppend(h[n..], tail);
  }

  /** The first window of a decided history is closed, and the rest is decided. */
  lemma DecidedParts(h: seq<Event>)
    requires AllDecided(h) && h != []
    ensures h[UntilCompleted(h) - 1].kind.DecisionTaskCompleted? && AllDecided(h[WindowLength(h)..])
  {
    hide UntilCompleted, WindowLength;
  }

  lemma DecidedCons(h: seq<Event>)
    requires h != [] && h[UntilCompleted(h) - 1].kind.DecisionTaskCompleted? && AllDecided(h[WindowLength(h)..])
    ensures AllDecided(h)
  {
    hide UntilCompleted, WindowLength;
  }

  /** Events that arrive after a closed window never change the windows before them. */
  lemma {:induction false} SplitAppend(h: seq<Event>, tail: seq<Event>)
    requires AllDecided(h)
    requires tail == [] || OpensWindow(tail[0].kind)
    ensures Split(h + tail) == Split(h) + Split(tail)
  {
    hide *;
    if h == [] {
      SplitNothing(tail);
    } else {
      DecidedParts(h);
      SplitAppend(h[WindowLength(h)..], tail);
      SplitAppendStep(h, tail);
    }
  }

  lemma SplitNothing(tail: seq<Event>)
    ensures Split([] + tail) == Split([]) + Split(tail)
  {
    hide WindowLength;
    var none: seq<Event> := [];
    assert none + tail == tail && Split(none) == [];
  }

  lemma SplitAppendStep(h: seq<Event>, tail: seq<Event>)
    requires h != [] && h[UntilCompleted(h) - 1].kind.DecisionTaskCompleted?
    requires tail == [] || OpensWindow(tail[0].kind)
    requires Split(h[WindowLength(h)..] + tail) == Split(h[WindowLength(h)..]) + Split(tail)
    ensures Split(h + tail) == Split(h) + Split(tail)
  {
    hide *;
    var first, rest := h[..WindowLength(h)], h[WindowLength(h)..];
    WindowLengthAppend(h, tail);
    assert h == first + rest && h + tail == first + (rest + tail);
    SplitCons(h, first, rest);
    SplitCons(h + tail, first, rest + tail);
    ConcatAssociative([first], Split(rest), Split(tail));
  }

  lemma SplitCons(h: seq<Event>, first: seq<Event>, rest: seq<Event>)
    requires h == first + rest && h != [] && WindowLength(h) == |first|
    ensures Split(h) == [first] + Split(rest)
  {
    hide WindowLength;
    assert h[..|first|] == first && h[|first|..] == rest;
  }

  lemma ConcatAssociative<T>(a: seq<T>, b: seq<T>, c: seq<T>)
    ensures a + (b + c) == a + b + c
  {
  }

  lemma {:induction false} AllDecidedAppend(h: seq<Event>, tail: seq<Event>)
    requires AllDecided(h) && AllDecided(tail)
    requires tail == [] || OpensWindow(tail[0].kind)
    ensures AllDecided(h + tail)
  {
    hide *;
    if h == [] {
      assert h + tail == tail;
    } else {
      DecidedParts(h);
      AllDecidedAppend(h[WindowLength(h)..], tail);
      WindowLengthAppend(h, tail);
      UntilCompletedAppend(h, tail);
      assert (h + tail)[WindowLength(h)..] == h[WindowLength(h)..] + tail;
      DecidedCons(h + tail);
    }
  }

  // ----- The objects -----

  /** `History::Window`: filled in place while the history is read. */
  class Window {
    var replay: bool
    var localTime: Option<int>
    var lastEventId: Option<int>
    var events: seq<Event>
    var markers: seq<Event>

    function View(): WindowState
      reads this
    {
      WindowState(replay, localTime, lastEventId, events, markers)
    }

    constructor ()
      ensures View() == EMPTY_WINDOW
    {
      replay, localTime, lastEventId, events, markers := false, None, None, [], [];
    }

    method Add(e: Event)
      modifies this
      ensures View() == AddEvent(old(View()), e)
    {
      match e.kind {
        case MarkerRecorded(_, _) => markers := markers + [e];
        case DecisionTaskStarted(t) =>
          lastEventId := Some(e.id + 1);
          localTime := Some(t);
        case DecisionTaskFailed => localTime := None;
        case DecisionTaskTimedOut => localTime := None;
        case DecisionTaskCompleted => replay := true;
        case DecisionTaskScheduled =>
        case _ => events := events + [e];
      }
    }
  }

  /** `Workflow::History`: the events and an iterator over them. */
  class History {
    const events: seq<Event>
    var position: nat

    ghost predicate Valid()
      reads this
    {
      position <= |events|
    }

    /** The events not yet read. */
    ghost function Unread(): seq<Event>
      requires Valid()
      reads this
    {
      events[position..]
    }

    constructor (events: seq<Event>)
      ensures Valid() && this.events == events && Unread() == events
    {
      this.events := events;
      position := 0;
    }

    method NextWindow() returns (w: Window?)
      requires Valid()
      modifies this
      ensures Valid()
      ensures w == null <==> old(Unread()) == []
      ensures w == null ==> Unread() == []
      ensures w != null ==> fresh(w)
      ensures w != null ==> Unread() == old(Unread())[WindowLength(old(Unread()))..]
      ensures w != null ==> w.View() == Collect(old(Unread())[..WindowLength(old(Unread()))])
    {
      if position == |events| {
        return null;
      }
      ghost var start := position;
      ghost var unread := Unread();
      w := new Window();
      ReadThroughDecision(w, start);
      assert unread[UntilCompleted(unread)..] == Unread();
      ReadCommands(w, start);
      assert unread[..WindowLength(unread)] == events[start..position];
    }

    /** The first loop of `next_window`: everything up to and including a completed decision task. */
    method ReadThroughDecision(w: Window, ghost start: nat)
      requires Valid() && start == position && w.View() == EMPTY_WINDOW
      modifies this, w
      ensures Valid() && position == start + UntilCompleted(events[start..])
      ensures w.View() == Collect(events[start..position])
    {
      var done := false;
      assert events[start..start] == [];
      while !done && position < |events|
        invariant Valid() && start <= position
        invariant w.View() == Collect(events[start..position])
        invariant start + UntilCompleted(events[start..]) == position + (if done then 0 else
            UntilCompleted(events[position..]))
        decreases |events| - position, !done
      {
        var e := events[position];
        SnocIndex(start, position);
        w.Add(e);
        position := position + 1;
        done := e.kind.DecisionTaskCompleted?;
      }
    }

    /** The second loop of `next_window`: the commands that the decision task issued. */
    method ReadCommands(w: Window, ghost start: nat)
      requires Valid() && start <= position && w.View() == Collect(events[start..position])
      modifies this, w
      ensures Valid() && position == old(position) + CommandRun(old(Unread()))
      ensures w.View() == Collect(events[start..position])
    {
      hide AddEvent, Collect;
      while position < |events| && events[position].kind.Command()
        invariant Valid() && start <= position
        invariant w.View() == Collect(events[start..position])
        invariant old(position) + CommandRun(events[old(position)..]) == position + CommandRun(events[position..])
      {
        SnocIndex(start, position);
        w.Add(events[position]);
        position := position + 1;
      }
    }

    lemma SnocIndex(start: nat, next: nat)
      requires start <= next < |events|
      ensures Collect(events[start..next + 1]) == AddEvent(Collect(events[start..next]), events[next])
    {
      assert events[start..next] + [events[next]] == events[start..next + 1];
      CollectSnoc(events[start..next], events[next]);
    }
  }

  // ----- Paging -----

  /** One page of history and, when the server gave a token, the page that token fetches. */
  datatype Page = Page(events: seq<Event>, next: Option<Page>)

  function Pages(p: Page): seq<seq<Event>> {
    if p.next.None? then [p.events] else [p.events] + Pages(p.next.value)
  }

  /** Page `k`: the first one comes with the task, each later one is fetched with the token of the one before. */
  function PageAt(p: Page, k: nat): Option<Page> {
    if k == 0 then Some(p) else if p.next.None? then None else PageAt(p.next.value, k - 1)
  }

  lemma {:induction false} PagesInOrder(p: Page, k: nat)
    ensures PageAt(p, k).Some? <==> k < |Pages(p)|
    ensures k < |Pages(p)| ==> Pages(p)[k] == PageAt(p, k).value.events
  {
    if k > 0 && p.next.Some? {
      PagesInOrder(p.next.value, k - 1);
    }
  }

  /** `fetch_full_history`: the pages in order, nothing else. */
  method FetchFullHistory(task: Page) returns (events: seq<Event>)
    ensures events == Flatten(Pages(task))
    ensures Flatten(Split(events)) == Flatten(Pages(task))
  {
    events := task.events;
    var token := task.next;
    while token.Some?
      invariant Flatten(Pages(task)) == events + (if token.Some? then Flatten(Pages(token.value)) else [])
      decreases token
    {
      events := events + token.value.events;
      token := token.value.next;
    }
    WindowsPartitionHistory(events);
  }
}
