/** Induction over what one event makes the code do: fibers start and resume, futures change status, and nothing else.
    A relation between executors that these keep is kept by every dispatch. Also the trace of an executor over the
    events that its windows hand over. */
module Runs {
  import opened Base
  import opened Events
  import opened Histories
  import opened StateManagers
  import opened Engine
  import opened Windows

  type Relation = (Machine, Machine) -> bool

  /** How a fiber begins: the root with the input of the workflow, any other with a block. */
  predicate Starts(root: bool, e: LogEntry, fiber: nat) {
    (e.Began? || e.Spawned?) && (root <==> e.Began?) && e.fiber == fiber
  }

  /** The relation is reflexive and transitive, and starting a fiber, resuming one and changing a future keep it. */
  ghost predicate Closed(env: Env, rel: Relation) {
    && (forall m :: rel(m, m))
    && (forall a, b, c :: rel(a, b) && rel(b, c) ==> rel(a, c))
    && (forall m: Machine, root, e :: Starts(root, e, |m.fibers|) && Launch(env, m, root, e).Ok? ==>
          rel(m, Launch(env, m, root, e).value))
    && (forall m: Machine, f: nat, status :: f < |m.futures| ==> rel(m, WithStatus(m, f, status)))
    && (forall m: Machine, f: nat, fiber: nat :: f < |m.futures| && WakeFiber(env, m, f, fiber).Ok? ==>
          rel(m, WakeFiber(env, m, f, fiber).value))
  }

  lemma {:induction false} RunCallbacksClosed(env: Env, m: Machine, blocks: seq<nat>, v: Value, rel: Relation)
    requires Closed(env, rel) && RunCallbacks(env, m, blocks, v).Ok?
    ensures rel(m, RunCallbacks(env, m, blocks, v).value)
  {
    hide Launch, WakeFiber;
    if blocks != [] {
      var front, last := blocks[..|blocks| - 1], blocks[|blocks| - 1];
      RunCallbacksClosed(env, m, front, v, rel);
      var before := RunCallbacks(env, m, front, v).value;
      var e := Spawned(|before.fibers|, last, Payload("", v));
      assert Starts(false, e, |before.fibers|);
      assert rel(before, Launch(env, before, false, e).value);
    }
  }

  lemma CallClosed(env: Env, m: Machine, h: Handler, p: Payload, rel: Relation)
    requires Closed(env, rel) && Call(env, m, h, p).Ok?
    ensures rel(m, Call(env, m, h, p).value)
  {
    hide Launch, WakeFiber;
    match h
    case Begin =>
      assert Starts(true, Began(|m.fibers|, p.value), |m.fibers|);
    case SignalBlock(b) =>
      assert Starts(false, Spawned(|m.fibers|, b, p), |m.fibers|);
    case Settle(f) =>
      var m1 := WithStatus(m, f, Ready(p.value));
      RunCallbacksClosed(env, m1, m.futures[f].callbacks, p.value, rel);
      assert rel(m, m1);
    case Break(f) =>
      assert rel(m, WithStatus(m, f, Broken(p.text, p.value)));
    case Wake(f, fiber) =>
  }

  lemma {:induction false} CallAllClosed(env: Env, m: Machine, hs: seq<Handler>, p: Payload, rel: Relation)
    requires Closed(env, rel) && CallAll(env, m, hs, p).Ok?
    ensures rel(m, CallAll(env, m, hs, p).value)
  {
    hide Call, Closed;
    if hs == [] {
      ClosedReflexive(env, rel, m);
    } else {
      var before := CallAll(env, m, hs[..|hs| - 1], p).value;
      CallAllClosed(env, m, hs[..|hs| - 1], p, rel);
      CallClosed(env, before, hs[|hs| - 1], p, rel);
      ClosedTransitive(env, rel, m, before, CallAll(env, m, hs, p).value);
    }
  }

  lemma ClosedReflexive(env: Env, rel: Relation, m: Machine)
    requires Closed(env, rel)
    ensures rel(m, m)
  {
  }

  lemma ClosedTransitive(env: Env, rel: Relation, a: Machine, b: Machine, c: Machine)
    requires Closed(env, rel) && rel(a, b) && rel(b, c)
    ensures rel(a, c)
  {
  }

  lemma ApplyEventClosed(env: Env, m: Machine, e: Event, rel: Relation)
    requires Closed(env, rel) && ApplyEvent(env, m, e).Ok?
    ensures Absorb(m.manager, e).Ok? && rel(Absorbed(m, e), ApplyEvent(env, m, e).value)
  {
    hide Absorb, Closed, CallAll;
    var notice := NoticeOf(e);
    var m1 := Absorbed(m, e);
    if notice.Some? {
      var n := notice.value;
      CallAllClosed(env, m1, Select(HandlersAt(m1.handlers, n.target), n.name), n.payload, rel);
    } else {
      ClosedReflexive(env, rel, m1);
    }
  }

  // ----- The order in which windows hand events over -----

  function InWindow(s: seq<Event>): seq<Event> {
    Collect(s).markers + Collect(s).events
  }

  function Applied(segments: seq<seq<Event>>): seq<Event> {
    if segments == [] then [] else Applied(segments[..|segments| - 1]) + InWindow(segments[|segments| - 1])
  }

  /** A window is its markers and events in one go. */
  lemma OneWindow(env: Env, m: Machine, s: seq<Event>)
    ensures ApplyEvents(env, Entered(m, Collect(s)), InWindow(s)) == ApplyWindow(env, m, Collect(s))
  {
    hide ApplyEvents, Collect;
    var w := Collect(s);
    ApplyEventsAppend(env, Entered(m, w), w.markers, w.events);
  }

  /** The executor after each of the events that it applied. */
  function EventsTrace(env: Env, m: Machine, es: seq<Event>): (trace: seq<Machine>)
    requires ApplyEvents(env, m, es).Ok?
    ensures |trace| == |es|
  {
    if es == [] then []
    else EventsTrace(env, m, es[..|es| - 1]) + [ApplyEvents(env, m, es).value]
  }

  /** The executor before and after every event of a run. */
  function Trace(env: Env, segments: seq<seq<Event>>): (trace: seq<Machine>)
    requires ApplyWindows(env, FRESH_MACHINE, segments).Ok?
    ensures |trace| == |Applied(segments)| + 1
  {
    if segments == [] then [FRESH_MACHINE]
    else
      var front, last := segments[..|segments| - 1], segments[|segments| - 1];
      var before := ApplyWindows(env, FRESH_MACHINE, front).value;
      OneWindow(env, before, last);
      Trace(env, front) + EventsTrace(env, Entered(before, Collect(last)), InWindow(last))
  }

  /** Two executors that differ at most in what entering a window sets. */
  predicate SameButWindow(m: Machine, m': Machine) {
    m' == m.(manager := m.manager.(replay := m'.manager.replay, localTime := m'.manager.localTime,
                                   lastEventId := m'.manager.lastEventId))
  }

  /** Step `k` of a run: the executor of the trace, with a window's flags set if one begins here, applies event `k`. */
  ghost predicate StepOf(env: Env, trace: seq<Machine>, es: seq<Event>, k: nat)
    requires k < |es| && |trace| == |es| + 1
  {
    exists m :: SameButWindow(trace[k], m) && ApplyEvent(env, m, es[k]) == Ok(trace[k + 1])
  }

  ghost predicate Stepwise(env: Env, trace: seq<Machine>, es: seq<Event>) {
    && |trace| == |es| + 1
    && trace[0] == FRESH_MACHINE
    && forall k: nat :: k < |es| ==> StepOf(env, trace, es, k)
  }

  lemma StepwiseSnoc(env: Env, trace: seq<Machine>, es: seq<Event>, m: Machine, e: Event, m': Machine)
    requires Stepwise(env, trace, es) && SameButWindow(trace[|es|], m) && ApplyEvent(env, m, e) == Ok(m')
    ensures Stepwise(env, trace + [m'], es + [e])
  {
    hide ApplyEvent;
    var trace', es' := trace + [m'], es + [e];
    forall k: nat | k < |es'|
      ensures StepOf(env, trace', es', k)
    {
      if k < |es| {
        assert StepOf(env, trace, es, k);
        assert trace'[k] == trace[k] && es'[k] == es[k] && trace'[k + 1] == trace[k + 1];
      } else {
        assert trace'[k] == trace[|es|] && es'[k] == e && trace'[k + 1] == m';
        assert SameButWindow(trace'[k], m) && ApplyEvent(env, m, es'[k]) == Ok(trace'[k + 1]);
      }
    }
  }

  lemma {:induction false} EventsStepwise(env: Env, trace: seq<Machine>, seen: seq<Event>, m: Machine, es: seq<Event>)
    requires Stepwise(env, trace, seen) && SameButWindow(trace[|seen|], m) && ApplyEvents(env, m, es).Ok?
    ensures Stepwise(env, trace + EventsTrace(env, m, es), seen + es)
    ensures SameButWindow((trace + EventsTrace(env, m, es))[|seen + es|], ApplyEvents(env, m, es).value)
  {
    hide ApplyEvent, Stepwise, SameButWindow;
    if es == [] {
      assert trace + EventsTrace(env, m, es) == trace && seen + es == seen;
    } else {
      var front, last := es[..|es| - 1], es[|es| - 1];
      var before, after := ApplyEvents(env, m, front).value, ApplyEvents(env, m, es).value;
      EventsStepwise(env, trace, seen, m, front);
      var trace', seen' := trace + EventsTrace(env, m, front), seen + front;
      StepwiseLength(env, trace', seen');
      StepwiseSnoc(env, trace', seen', before, last, after);
      assert trace' + [after] == trace + EventsTrace(env, m, es) && seen' + [last] == seen + es;
      StepwiseLength(env, trace' + [after], seen' + [last]);
      SameButNothing(after);
    }
  }

  lemma StepwiseLength(env: Env, trace: seq<Machine>, es: seq<Event>)
    requires Stepwise(env, trace, es)
    ensures |trace| == |es| + 1
  {
  }

  lemma SameButNothing(m: Machine)
    ensures SameButWindow(m, m)
  {
  }

  lemma SameButEntered(m: Machine, m': Machine, w: WindowState)
    requires SameButWindow(m, m')
    ensures SameButWindow(m, Entered(m', w))
  {
  }

  /** The trace of a run goes step by step from the fresh executor to the one that the run ends with. */
  lemma {:induction false} RunStepwise(env: Env, segments: seq<seq<Event>>)
    requires ApplyWindows(env, FRESH_MACHINE, segments).Ok?
    ensures Stepwise(env, Trace(env, segments), Applied(segments))
    ensures SameButWindow(Trace(env, segments)[|Applied(segments)|], ApplyWindows(env, FRESH_MACHINE, segments).value)
  {
    hide ApplyEvents, Collect, ApplyEvent, SameButWindow, EventsTrace, InWindow;
    if segments == [] {
      SameButNothing(FRESH_MACHINE);
    } else {
      var front, last := segments[..|segments| - 1], segments[|segments| - 1];
      var before, w := ApplyWindows(env, FRESH_MACHINE, front).value, Collect(last);
      RunStepwise(env, front);
      OneWindow(env, before, last);
      SameButEntered(Trace(env, front)[|Applied(front)|], before, w);
      EventsStepwise(env, Trace(env, front), Applied(front), Entered(before, w), InWindow(last));
    }
  }
}
