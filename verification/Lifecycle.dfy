/** The life of each tracked decision. The state machines have no guards; that no decision ever moves backwards is a
    property of whole runs. */
module Lifecycle {
  import opened Base
  import opened Events
  import opened Histories
  import opened StateManagers
  import opened Engine
  import opened Growth
  import opened Runs

  type Tracker = map<int, Phase>

  function Rank(p: Phase): nat {
    match p
    case New => 0
    case Requested => 1
    case Scheduled => 2
    case Started => 3
    case _ => 4
  }

  predicate Over(p: Phase) { Rank(p) == 4 }

  // ----- What a history says about one decision -----

  /** The phases that the events about decision `id` stand for, in order. */
  function Phases(es: seq<Event>, id: int): seq<Phase> {
    if es == [] then [] else Phases(es[..|es| - 1], id) + Step(es[|es| - 1], id)
  }

  function Step(e: Event, id: int): seq<Phase> {
    if e.DecisionId() == id && PhaseAfter(e.kind).Some? then [PhaseAfter(e.kind).value] else []
  }

  predicate Increasing(ps: seq<Phase>) {
    forall i, j :: 0 <= i < j < |ps| ==> Rank(ps[i]) < Rank(ps[j])
  }

  lemma PhasesSnoc(es: seq<Event>, e: Event, id: int)
    ensures Phases(es + [e], id) == Phases(es, id) + Step(e, id)
  {
    assert (es + [e])[..|es|] == es;
  }

  lemma {:induction false} PhasesAppend(a: seq<Event>, b: seq<Event>, id: int)
    ensures Phases(a + b, id) == Phases(a, id) + Phases(b, id)
  {
    if b == [] {
      assert a + b == a && Phases(b, id) == [];
    } else {
      hide *;
      var front, last := b[..|b| - 1], b[|b| - 1];
      assert a + b == a + front + [last] && b == front + [last];
      calc {
        Phases(a + b, id);
        { PhasesSnoc(a + front, last, id); }
        Phases(a + front, id) + Step(last, id);
        { PhasesAppend(a, front, id); }
        Phases(a, id) + Phases(front, id) + Step(last, id);
        { ConcatAssociative(Phases(a, id), Phases(front, id), Step(last, id)); }
        Phases(a, id) + (Phases(front, id) + Step(last, id));
        { PhasesSnoc(front, last, id); }
        Phases(a, id) + Phases(b, id);
      }
    }
  }

  lemma {:induction false} NoPhases(es: seq<Event>, id: int)
    requires forall i :: 0 <= i < |es| ==> Step(es[i], id) == []
    ensures Phases(es, id) == []
  {
    if es != [] {
      NoPhases(es[..|es| - 1], id);
    }
  }

  // ----- The order in which windows hand events over -----

  /** Events number themselves upwards and are about no later event. */
  predicate RefersBack(s: seq<Event>) {
    && (forall i, j :: 0 <= i < j < |s| ==> s[i].id < s[j].id)
    && (forall i :: 0 <= i < |s| ==> PhaseAfter(s[i].kind).Some? ==> s[i].DecisionId() <= s[i].id)
  }

  lemma {:induction false} WindowEventsAreRead(s: seq<Event>)
    ensures forall e :: e in Collect(s).events ==> e in s
  {
    if s != [] {
      var front, last := s[..|s| - 1], s[|s| - 1];
      WindowEventsAreRead(front);
      assert forall e :: e in front ==> e in s;
      assert Collect(s).events == Collect(front).events || Collect(s).events == Collect(front).events + [last];
    }
  }

  /** Nothing in a window is about a marker that comes later. */
  lemma NothingBefore(s: seq<Event>, last: Event)
    requires RefersBack(s + [last])
    ensures Phases(Collect(s).events, last.id) == []
  {
    hide Collect, Phases;
    var events, all := Collect(s).events, s + [last];
    WindowEventsAreRead(s);
    forall i | 0 <= i < |events|
      ensures Step(events[i], last.id) == []
    {
      assert events[i] in s;
      var k :| 0 <= k < |s| && s[k] == events[i];
      assert all[k] == events[i] && all[|s|] == last;
    }
    NoPhases(events, last.id);
  }

  lemma MarkerFirst(markers: seq<Event>, events: seq<Event>, e: Event, id: int)
    requires Step(e, id) == [] || Phases(events, id) == []
    ensures Phases(markers + [e] + events, id) == Phases(markers + events, id) + Step(e, id)
  {
    hide Phases, Step;
    PhasesAppend(markers, events, id);
    PhasesAppend(markers + [e], events, id);
    PhasesSnoc(markers, e, id);
  }

  /** Taking the markers of a window first keeps the order of the events about each decision. */
  lemma {:induction false} WindowKeepsPhases(s: seq<Event>, id: int)
    requires RefersBack(s)
    ensures Phases(InWindow(s), id) == Phases(s, id)
  {
    if s != [] {
      var front, last := s[..|s| - 1], s[|s| - 1];
      var v := Collect(front);
      WindowKeepsPhases(front, id);
      assert front + [last] == s;
      WindowGrows(front, last);
      hide Collect, InWindow, Phases, PhaseAfter, RefersBack;
      PhasesSnoc(front, last, id);
      if last.kind.MarkerRecorded? {
        NothingBefore(front, last);
        MarkerFirst(v.markers, v.events, last, id);
      } else if !last.kind.Bookkeeping() {
        PhasesSnoc(v.markers + v.events, last, id);
      }
    }
  }

  /** What one more event adds to a window; bookkeeping adds nothing and is about no decision. */
  lemma WindowGrows(s: seq<Event>, e: Event)
    ensures
      var v := Collect(s);
      && InWindow(s) == v.markers + v.events
      && (e.kind.MarkerRecorded? ==> InWindow(s + [e]) == v.markers + [e] + v.events)
      && (e.kind.MarkerRecorded? ==> e.DecisionId() == e.id)
      && (!e.kind.MarkerRecorded? && !e.kind.Bookkeeping() ==> InWindow(s + [e]) == v.markers + v.events + [e])
      && (e.kind.Bookkeeping() ==> InWindow(s + [e]) == InWindow(s) && PhaseAfter(e.kind).None?)
  {
    CollectSnoc(s, e);
    var v := Collect(s);
    hide Collect;
    assert v.markers + v.events + [e] == v.markers + (v.events + [e]);
  }

  lemma {:induction false} AppliedKeepsPhases(segments: seq<seq<Event>>, id: int)
    requires forall k :: 0 <= k < |segments| ==> Phases(InWindow(segments[k]), id) == Phases(segments[k], id)
    ensures Phases(Applied(segments), id) == Phases(Flatten(segments), id)
  {
    hide InWindow, Phases;
    if segments == [] {
    } else {
      var front, last := segments[..|segments| - 1], segments[|segments| - 1];
      AppliedKeepsPhases(front, id);
      PhasesAppend(Applied(front), InWindow(last), id);
      PhasesAppend(Flatten(front), last, id);
      FlattenSnoc(front, last);
      assert front + [last] == segments;
    }
  }

  lemma {:induction false} FlattenSnoc<T>(ss: seq<seq<T>>, s: seq<T>)
    ensures Flatten(ss + [s]) == Flatten(ss) + s
  {
    if ss == [] {
      assert ss + [s] == [s];
    } else {
      FlattenSnoc(ss[1..], s);
      assert (ss + [s])[1..] == ss[1..] + [s];
    }
  }

  lemma {:induction false} WindowsReferBack(h: seq<Event>)
    requires RefersBack(h)
    ensures forall k :: 0 <= k < |Split(h)| ==> RefersBack(Split(h)[k])
  {
    if h != [] {
      var n := WindowLength(h);
      WindowsReferBack(h[n..]);
      assert Split(h)[1..] == Split(h[n..]);
    }
  }

  /** A server whose events about one decision are in the order of its life. */
  ghost predicate OrderlyServer(h: seq<Event>) {
    RefersBack(h) && forall id :: Increasing(Phases(h, id))
  }

  /** Windows hand over each decision's events in the order of its life. */
  lemma OrderlyWindows(h: seq<Event>)
    requires OrderlyServer(h)
    ensures forall id :: Increasing(Phases(Applied(Split(h)), id))
  {
    WindowsReferBack(h);
    WindowsPartitionHistory(h);
    forall id
      ensures Phases(Applied(Split(h)), id) == Phases(h, id)
    {
      forall k | 0 <= k < |Split(h)|
        ensures Phases(InWindow(Split(h)[k]), id) == Phases(Split(h)[k], id)
      {
        WindowKeepsPhases(Split(h)[k], id);
      }
      AppliedKeepsPhases(Split(h), id);
    }
  }

  // ----- The tracker over a run -----

  /** The tracker knows of a decision what the last event about it said; one without events is new or requested. */
  predicate AgreesAt(t: Tracker, es: seq<Event>, id: int) {
    var ps := Phases(es, id);
    if ps == [] then PhaseOf(t, id) == New || PhaseOf(t, id) == Requested else PhaseOf(t, id) == ps[|ps| - 1]
  }

  ghost predicate Agrees(t: Tracker, es: seq<Event>) {
    forall id :: AgreesAt(t, es, id)
  }

  /** A decision that was tracked stays tracked. */
  ghost predicate StaysKnown(t: Tracker, t': Tracker) {
    forall id :: PhaseOf(t, id) != New ==> PhaseOf(t', id) != New
  }

  lemma PhaseStep(t: Tracker, t': Tracker, e: Event, seen: seq<Event>, id: int)
    requires AgreesAt(t, seen, id)
    requires if Step(e, id) != [] then PhaseOf(t', id) == Step(e, id)[0] != New
             else PhaseOf(t', id) == PhaseOf(t, id) || (PhaseOf(t, id) == New && PhaseOf(t', id) == Requested)
    requires forall p :: p in Phases(seen, id) ==> p != New
    ensures AgreesAt(t', seen + [e], id)
    ensures PhaseOf(t, id) != New ==> PhaseOf(t', id) != New
  {
    PhasesSnoc(seen, e, id);
    var ps := Phases(seen, id);
    assert ps != [] ==> ps[|ps| - 1] in ps;
  }

  lemma {:induction false} PhasesAreNotNew(es: seq<Event>, id: int)
    ensures forall p :: p in Phases(es, id) ==> p != New
  {
    if es != [] {
      PhasesAreNotNew(es[..|es| - 1], id);
    }
  }

  lemma EventAgrees(env: Env, m: Machine, e: Event, seen: seq<Event>)
    requires Agrees(m.manager.tracker, seen) && ApplyEvent(env, m, e).Ok?
    ensures Agrees(ApplyEvent(env, m, e).value.manager.tracker, seen + [e])
    ensures StaysKnown(m.manager.tracker, ApplyEvent(env, m, e).value.manager.tracker)
  {
    hide ApplyEvent, Phases, Step, AgreesAt, PhaseOf;
    TrackedStep(env, m, e);
    var t, t' := m.manager.tracker, ApplyEvent(env, m, e).value.manager.tracker;
    forall id
      ensures AgreesAt(t', seen + [e], id)
      ensures PhaseOf(t, id) != New ==> PhaseOf(t', id) != New
    {
      assert AgreesAt(t, seen, id);
      PhasesAreNotNew(seen, id);
      PhaseStep(t, t', e, seen, id);
    }
  }

  /** What one event does to the tracker: it sets the phase of the decision it is about, and the code that it wakes
      only requests decisions that were never tracked. */
  lemma TrackedStep(env: Env, m: Machine, e: Event)
    requires ApplyEvent(env, m, e).Ok?
    ensures
      var t, t' := m.manager.tracker, ApplyEvent(env, m, e).value.manager.tracker;
      forall id ::
        if Step(e, id) != [] then PhaseOf(t', id) == Step(e, id)[0] != New
        else PhaseOf(t', id) == PhaseOf(t, id) || (PhaseOf(t, id) == New && PhaseOf(t', id) == Requested)
  {
    var absorbed := Absorb(m.manager, e).value;
    var m1 := m.(manager := absorbed);
    AbsorbedTracker(m.manager, e);
    hide Absorb, PhaseAfter, ScheduleDecision, Extends;
    var notice := NoticeOf(e);
    if notice.Some? {
      CallAllGrows(env, m1, Select(HandlersAt(m1.handlers, notice.value.target), notice.value.name),
          notice.value.payload);
    }
  }

  lemma AbsorbedTracker(m: ManagerState, e: Event)
    requires Absorb(m, e).Ok?
    ensures
      forall id ::
        PhaseOf(Absorb(m, e).value.tracker, id) == if Step(e, id) != [] then Step(e, id)[0] else PhaseOf(m.tracker, id)
    ensures forall id :: Step(e, id) != [] ==> Step(e, id)[0] != New
  {
  }

  // ----- The theorem -----

  function TrackerAt(trace: seq<Machine>, k: nat): Tracker
    requires k < |trace|
  {
    trace[k].manager.tracker
  }

  lemma StepAgrees(env: Env, trace: seq<Machine>, es: seq<Event>, k: nat)
    requires Stepwise(env, trace, es) && k < |es| && Agrees(TrackerAt(trace, k), es[..k])
    ensures Agrees(TrackerAt(trace, k + 1), es[..k + 1])
    ensures StaysKnown(TrackerAt(trace, k), TrackerAt(trace, k + 1))
  {
    hide ApplyEvent, Agrees, StaysKnown;
    assert StepOf(env, trace, es, k);
    var m :| SameButWindow(trace[k], m) && ApplyEvent(env, m, es[k]) == Ok(trace[k + 1]);
    EventAgrees(env, m, es[k], es[..k]);
    assert es[..k] + [es[k]] == es[..k + 1];
  }

  lemma {:induction false} TraceAgrees(env: Env, trace: seq<Machine>, es: seq<Event>, k: nat)
    requires Stepwise(env, trace, es) && k <= |es|
    ensures Agrees(TrackerAt(trace, k), es[..k])
  {
    if k == 0 {
      assert forall id :: Phases(es[..0], id) == [];
    } else {
      TraceAgrees(env, trace, es, k - 1);
      StepAgrees(env, trace, es, k - 1);
    }
  }

  lemma {:induction false} KnownForGood(env: Env, trace: seq<Machine>, es: seq<Event>, i: nat, j: nat)
    requires Stepwise(env, trace, es) && i <= j <= |es|
    ensures StaysKnown(TrackerAt(trace, i), TrackerAt(trace, j))
    decreases j
  {
    if i < j {
      KnownForGood(env, trace, es, i, j - 1);
      TraceAgrees(env, trace, es, j - 1);
      StepAgrees(env, trace, es, j - 1);
    }
  }

  lemma PhasesPrefix(es: seq<Event>, i: nat, j: nat, id: int)
    requires i <= j <= |es|
    ensures Phases(es[..i], id) <= Phases(es[..j], id) <= Phases(es, id)
  {
    assert es[..i] + es[i..j] == es[..j] && es[..j] + es[j..] == es;
    PhasesAppend(es[..i], es[i..j], id);
    PhasesAppend(es[..j], es[j..], id);
  }

  lemma PhaseOrder(t: Tracker, t': Tracker, es: seq<Event>, i: nat, j: nat, id: int)
    requires i <= j <= |es| && Increasing(Phases(es, id))
    requires AgreesAt(t, es[..i], id) && AgreesAt(t', es[..j], id)
    requires PhaseOf(t, id) != New ==> PhaseOf(t', id) != New
    ensures Rank(PhaseOf(t, id)) <= Rank(PhaseOf(t', id))
    ensures Over(PhaseOf(t, id)) ==> PhaseOf(t', id) == PhaseOf(t, id)
  {
    hide Phases;
    PhasesPrefix(es, i, j, id);
    PhasesAreNotNew(es[..j], id);
    var ps, ps', all := Phases(es[..i], id), Phases(es[..j], id), Phases(es, id);
    if ps != [] {
      LastPhases(ps, ps', all);
    }
    if ps' != [] {
      assert ps'[|ps'| - 1] in ps';
    }
  }

  lemma LastPhases(ps: seq<Phase>, ps': seq<Phase>, all: seq<Phase>)
    requires ps <= ps' <= all && Increasing(all) && ps != []
    ensures var p, p' := ps[|ps| - 1], ps'[|ps'| - 1]; Rank(p) <= Rank(p') && (Over(p) ==> p' == p)
  {
    hide Rank;
    assert forall p :: Rank(p) <= 4 by { RankAtMostFour(); }
    assert ps'[|ps'| - 1] == all[|ps'| - 1] && ps[|ps| - 1] == all[|ps| - 1];
  }

  lemma RankAtMostFour()
    ensures forall p :: Rank(p) <= 4
  {
  }

  /** Lives only move forward: whenever an executor applies the history of an orderly server, every decision's phase at
      a later event is at or beyond its phase at an earlier one, and once it is over it never changes again. */
  lemma LivesMoveForward(env: Env, h: seq<Event>, i: nat, j: nat, id: int)
    requires OrderlyServer(h) && Execute(env, h).Ok?
    requires i <= j < |Trace(env, Split(h))|
    ensures
      var trace := Trace(env, Split(h));
      var earlier, later := PhaseOf(TrackerAt(trace, i), id), PhaseOf(TrackerAt(trace, j), id);
      Rank(earlier) <= Rank(later) && (Over(earlier) ==> later == earlier)
    ensures
      var trace := Trace(env, Split(h));
      TrackerAt(trace, |trace| - 1) == Execute(env, h).value.manager.tracker
  {
    var trace, es := Trace(env, Split(h)), Applied(Split(h));
    hide ApplyWindows, Split, Phases, Applied, AgreesAt, Over, Rank, Increasing, OrderlyServer, Trace, Stepwise;
    RunStepwise(env, Split(h));
    OrderlyWindows(h);
    KnownForGood(env, trace, es, i, j);
    TraceAgrees(env, trace, es, i);
    TraceAgrees(env, trace, es, j);
    assert AgreesAt(TrackerAt(trace, i), es[..i], id) && AgreesAt(TrackerAt(trace, j), es[..j], id);
    assert Increasing(Phases(es, id));
    PhaseOrder(TrackerAt(trace, i), TrackerAt(trace, j), es, i, j, id);
  }
}
