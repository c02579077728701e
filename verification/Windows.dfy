/** What the windows of a recorded history look like, and what replay does with the echoes in them. */
module Windows {
  import opened Base
  import opened Decisions
  import opened Events
  import opened Histories
  import opened StateManagers
  import opened Engine
  import opened Protocol
  import opened Mirror
  import opened MirrorRun
  import Decimal

  // ----- The two parts of a window -----

  /** The events a window hands to `apply_event` after the markers. */
  function Handed(es: seq<Event>): seq<Event> {
    if es == [] then []
    else
      var last := es[|es| - 1];
      Handed(es[..|es| - 1]) + (if last.kind.Bookkeeping() || last.kind.MarkerRecorded? then [] else [last])
  }

  function MarkersIn(es: seq<Event>): seq<Event> {
    if es == [] then []
    else
      var last := es[|es| - 1];
      MarkersIn(es[..|es| - 1]) + (if last.kind.MarkerRecorded? then [last] else [])
  }

  predicate NoBookkeeping(es: seq<Event>) {
    forall i :: 0 <= i < |es| ==> !es[i].kind.Bookkeeping()
  }

  /** A window that was handed more events, none of them bookkeeping. */
  function Extend(w: WindowState, es: seq<Event>): WindowState {
    w.(events := w.events + Handed(es), markers := w.markers + MarkersIn(es))
  }

  lemma ExtendSnoc(w: WindowState, es: seq<Event>, e: Event)
    requires !e.kind.Bookkeeping()
    ensures Extend(w, es + [e]) == AddEvent(Extend(w, es), e)
  {
    HandedSnoc(es, e);
    hide Handed, MarkersIn;
    var h, k := Handed(es), MarkersIn(es);
    if e.kind.MarkerRecorded? {
      assert w.markers + (k + [e]) == w.markers + k + [e];
      assert h + [] == h;
    } else {
      assert w.events + (h + [e]) == w.events + h + [e];
      assert k + [] == k;
    }
  }

  /** Commands only add to a window; they change neither its clock nor its id base. */
  lemma {:induction false} CollectAppend(a: seq<Event>, b: seq<Event>)
    requires NoBookkeeping(b)
    ensures Collect(a + b) == Extend(Collect(a), b)
  {
    hide AddEvent;
    if b == [] {
      assert a + b == a;
    } else {
      var front, last := b[..|b| - 1], b[|b| - 1];
      CollectAppend(a, front);
      hide Extend, Collect;
      CollectSnoc(a + front, last);
      ExtendSnoc(Collect(a), front, last);
      assert a + front + [last] == a + b && front + [last] == b;
    }
  }

  lemma CollectCompleted(a: seq<Event>, completed: Event, b: seq<Event>)
    requires completed.kind.DecisionTaskCompleted? && NoBookkeeping(b)
    ensures
      var w := Collect(a);
      Collect(a + [completed] + b) == w.(replay := true, events := w.events + Handed(b),
          markers := w.markers + MarkersIn(b))
  {
    CollectSnoc(a, completed);
    CollectAppend(a + [completed], b);
  }

  /** The window of a task that is being handled now: live, with the given clock and id base, and only news in it. */
  lemma NewWindow(h: seq<Event>, r: Round)
    requires ValidRound(r)
    ensures
      var w := Collect(NewEvents(h, r));
      && !w.replay && w.localTime == Some(r.time) && w.lastEventId == Some(BaseId(h, r))
      && w.markers == [] && News(w.events)
  {
    var events := Numbering(|h| + 1, r.noise);
    var started := Event(|h| + |r.noise| + 1, DecisionTaskStarted(r.time));
    NoiseWindow(events);
    CollectSnoc(events, started);
    assert NewEvents(h, r) == events + [started];
  }

  lemma {:induction false} NoiseWindow(es: seq<Event>)
    requires forall i :: 0 <= i < |es| ==> External(es[i].kind)
    ensures !Collect(es).replay && Collect(es).markers == [] && News(Collect(es).events)
  {
    if es != [] {
      NoiseWindow(es[..|es| - 1]);
    }
  }

  // ----- Echoes -----

  /** The command events of these decisions. */
  function EchoesOf(es: seq<Entry>, completed: int, r: Round): (echoes: seq<Event>)
    ensures |echoes| == |es|
    ensures forall i :: 0 <= i < |es| ==> echoes[i] == Event(es[i].id, ReplyTo(es[i], completed, r))
  {
    seq(|es|, i requires 0 <= i < |es| => Event(es[i].id, ReplyTo(es[i], completed, r)))
  }

  function Marked(es: seq<Entry>): seq<Entry> {
    if es == [] then []
    else
      var last := es[|es| - 1];
      Marked(es[..|es| - 1]) + (if last.decision.RecordMarker? then [last] else [])
  }

  lemma EchoesSnoc(es: seq<Entry>, e: Entry, completed: int, r: Round)
    ensures EchoesOf(es + [e], completed, r) == EchoesOf(es, completed, r) + EchoesOf([e], completed, r)
  {
  }

  lemma HandedSnoc(es: seq<Event>, e: Event)
    ensures Handed(es + [e]) == Handed(es) + (if e.kind.Bookkeeping() || e.kind.MarkerRecorded? then [] else [e])
    ensures MarkersIn(es + [e]) == MarkersIn(es) + (if e.kind.MarkerRecorded? then [e] else [])
  {
    assert (es + [e])[..|es|] == es;
  }

  lemma {:induction false} EchoParts(es: seq<Entry>, completed: int, r: Round)
    ensures Handed(EchoesOf(es, completed, r)) == EchoesOf(Unmarked(es), completed, r)
    ensures MarkersIn(EchoesOf(es, completed, r)) == EchoesOf(Marked(es), completed, r)
  {
    hide *;
    if es == [] {
      NoEchoes(es, completed, r);
    } else {
      var front, last := es[..|es| - 1], es[|es| - 1];
      assert es == front + [last];
      EchoParts(front, completed, r);
      EchoesSnoc(front, last, completed, r);
      OneEcho(last, completed, r);
      HandedSnoc(EchoesOf(front, completed, r), EchoesOf([last], completed, r)[0]);
      PartsSnoc(front, last);
      if last.decision.RecordMarker? {
        EchoesSnoc(Marked(front), last, completed, r);
      } else {
        EchoesSnoc(Unmarked(front), last, completed, r);
      }
      NothingMore(Handed(EchoesOf(front, completed, r)));
      NothingMore(MarkersIn(EchoesOf(front, completed, r)));
    }
  }

  lemma NothingMore<T>(a: seq<T>)
    ensures a + [] == a
  {
  }

  lemma NoEchoes(es: seq<Entry>, completed: int, r: Round)
    requires es == []
    ensures Handed(EchoesOf(es, completed, r)) == EchoesOf(Unmarked(es), completed, r)
    ensures MarkersIn(EchoesOf(es, completed, r)) == EchoesOf(Marked(es), completed, r)
  {
  }

  lemma OneEcho(e: Entry, completed: int, r: Round)
    ensures |EchoesOf([e], completed, r)| == 1
    ensures EchoesOf([e], completed, r) == [EchoesOf([e], completed, r)[0]]
    ensures !EchoesOf([e], completed, r)[0].kind.Bookkeeping()
    ensures EchoesOf([e], completed, r)[0].kind.MarkerRecorded? <==> e.decision.RecordMarker?
  {
  }

  lemma PartsSnoc(es: seq<Entry>, e: Entry)
    ensures Unmarked(es + [e]) == if e.decision.RecordMarker? then Unmarked(es) else Unmarked(es) + [e]
    ensures Marked(es + [e]) == if e.decision.RecordMarker? then Marked(es) + [e] else Marked(es)
  {
    assert (es + [e])[..|es|] == es;
  }

  lemma {:induction false} HandedCancels(es: seq<Event>)
    requires forall i :: 0 <= i < |es| ==> es[i].kind == WorkflowExecutionCancelRequested
    ensures Handed(es) == es && MarkersIn(es) == []
  {
    hide *;
    if es == [] {
      NothingHanded(es);
    } else {
      var front, last := es[..|es| - 1], es[|es| - 1];
      HandedCancels(front);
      assert es == front + [last];
      HandedSnoc(front, last);
      CancelHanded(last);
      NothingMore(MarkersIn(front));
    }
  }

  lemma CancelHanded(e: Event)
    requires e.kind == WorkflowExecutionCancelRequested
    ensures !e.kind.Bookkeeping() && !e.kind.MarkerRecorded?
  {
  }

  lemma {:induction false} HandedAppend(a: seq<Event>, b: seq<Event>)
    ensures Handed(a + b) == Handed(a) + Handed(b)
    ensures MarkersIn(a + b) == MarkersIn(a) + MarkersIn(b)
  {
    hide *;
    if b == [] {
      NothingHanded(b);
      NothingMore(a);
      NothingMore(Handed(a));
      NothingMore(MarkersIn(a));
    } else {
      HandedAppend(a, b[..|b| - 1]);
      HandedAppendStep(a, b[..|b| - 1], b[|b| - 1]);
      assert b == b[..|b| - 1] + [b[|b| - 1]];
    }
  }

  lemma HandedAppendStep(a: seq<Event>, b: seq<Event>, e: Event)
    requires Handed(a + b) == Handed(a) + Handed(b) && MarkersIn(a + b) == MarkersIn(a) + MarkersIn(b)
    ensures Handed(a + (b + [e])) == Handed(a) + Handed(b + [e])
    ensures MarkersIn(a + (b + [e])) == MarkersIn(a) + MarkersIn(b + [e])
  {
    hide *;
    HandedSnoc(b, e);
    HandedSnoc(a + b, e);
    ConcatAssociative(a, b, [e]);
    ConcatAssociative(Handed(a), Handed(b), if e.kind.Bookkeeping() || e.kind.MarkerRecorded? then [] else [e]);
    ConcatAssociative(MarkersIn(a), MarkersIn(b), if e.kind.MarkerRecorded? then [e] else []);
  }

  lemma NothingHanded(es: seq<Event>)
    requires es == []
    ensures Handed(es) == [] && MarkersIn(es) == []
  {
  }

  function CancelEvents(first: int, r: Round): seq<Event> {
    Numbering(first, CancelRequests(r.cancels))
  }

  /** The replay window of a recorded task is the live window followed by the echoes of what it issued. */
  lemma RecordedWindow(h: seq<Event>, r: Round, es: seq<Entry>)
    requires ValidRound(r) && Numbered(es, BaseId(h, r))
    ensures
      var live, base := Collect(NewEvents(h, r)), BaseId(h, r);
      Collect(Segment(h, r, es)) == live.(
        replay := true,
        events := live.events + (EchoesOf(Unmarked(es), base, r) + CancelEvents(base + |es| + 1, r)),
        markers := EchoesOf(Marked(es), base, r))
  {
    hide *;
    var base := BaseId(h, r);
    var completed := Event(base, DecisionTaskCompleted);
    var echoes, cancels := EchoesOf(es, base, r), CancelEvents(base + |es| + 1, r);
    NewWindow(h, r);
    SegmentParts(h, r, es);
    CollectCompleted(NewEvents(h, r), completed, echoes + cancels);
    EchoWindowParts(es, base, r);
  }

  lemma EchoWindowParts(es: seq<Entry>, base: int, r: Round)
    ensures
      var echoes, cancels := EchoesOf(es, base, r), CancelEvents(base + |es| + 1, r);
      && Handed(echoes + cancels) == EchoesOf(Unmarked(es), base, r) + cancels
      && [] + MarkersIn(echoes + cancels) == EchoesOf(Marked(es), base, r)
  {
    var echoes, cancels := EchoesOf(es, base, r), CancelEvents(base + |es| + 1, r);
    hide Handed, MarkersIn, EchoesOf, Marked, Unmarked;
    HandedAppend(echoes, cancels);
    EchoParts(es, base, r);
    HandedCancels(cancels);
  }

  lemma SegmentParts(h: seq<Event>, r: Round, es: seq<Entry>)
    requires Numbered(es, BaseId(h, r))
    ensures
      var base := BaseId(h, r);
      var echoes, cancels := EchoesOf(es, base, r), CancelEvents(base + |es| + 1, r);
      && Segment(h, r, es) == NewEvents(h, r) + [Event(base, DecisionTaskCompleted)] + (echoes + cancels)
      && NoBookkeeping(echoes + cancels)
  {
    var base := BaseId(h, r);
    var echoes, cancels := EchoesOf(es, base, r), CancelEvents(base + |es| + 1, r);
    CompletionParts(h, r, es);
    hide Completion, NewEvents, NoBookkeeping, EchoesOf, CancelEvents;
    assert Segment(h, r, es) == NewEvents(h, r) + [Event(base, DecisionTaskCompleted)] + (echoes + cancels);
  }

  /** What stands where once the server has written a round: news, completion, one command event for each decision,
      cancel requests. */
  lemma SegmentAt(h: seq<Event>, r: Round, es: seq<Entry>)
    ensures
      var h', base := h + Segment(h, r, es), BaseId(h, r);
      && |h| < base - 1 < base + |es| <= |h'|
      && (forall i :: |h| <= i < base - 1 ==> h'[i].kind == (r.noise + [DecisionTaskStarted(r.time)])[i - |h|])
      && h'[base - 1] == Event(base, DecisionTaskCompleted)
      && (forall i :: base <= i < base + |es| ==> h'[i] == Event(i + 1, ReplyTo(es[i - base], base, r)))
      && (forall i :: base + |es| <= i < |h'| ==> h'[i].kind == WorkflowExecutionCancelRequested)
  {
    hide ReplyTo;
  }

  lemma CompletionParts(h: seq<Event>, r: Round, es: seq<Entry>)
    requires Numbered(es, BaseId(h, r))
    ensures
      var base := BaseId(h, r);
      var echoes, cancels := EchoesOf(es, base, r), CancelEvents(base + |es| + 1, r);
      Completion(h, r, es) == [Event(base, DecisionTaskCompleted)] + (echoes + cancels)
          && NoBookkeeping(echoes + cancels)
  {
  }

  // ----- Loading markers -----

  function MarkerIdsOf(es: seq<Entry>): set<int> {
    set i | 0 <= i < |es| && es[i].decision.RecordMarker? :: es[i].id
  }

  function SideEffectAt(e: Entry): seq<SideEffect> {
    if IsSideEffect(e) then [SideEffect(e.id, e.decision.details)] else []
  }

  function ReleaseAt(e: Entry): set<Value> {
    if IsRelease(e) then {e.decision.details} else {}
  }

  lemma {:induction false} SnocSideEffect(es: seq<Entry>, e: Entry)
    ensures SideEffectsOf(es + [e]) == SideEffectsOf(es) + SideEffectAt(e)
  {
    if es == [] {
      assert es + [e] == [e];
    } else {
      SnocSideEffect(es[1..], e);
      assert (es + [e])[1..] == es[1..] + [e];
    }
  }

  lemma {:induction false} SnocRelease(es: seq<Entry>, e: Entry)
    ensures ReleasesOf(es + [e]) == ReleasesOf(es) + ReleaseAt(e)
  {
    if es == [] {
      assert es + [e] == [e];
    } else {
      SnocRelease(es[1..], e);
      assert (es + [e])[1..] == es[1..] + [e];
    }
  }

  /** The state manager after the recorded markers of a window were handled. */
  ghost predicate Loaded(m: ManagerState, m': ManagerState, es: seq<Entry>) {
    && m'.decisions == m.decisions && m'.lastEventId == m.lastEventId
    && m'.localTime == m.localTime && m'.replay == m.replay
    && m'.sideEffects == m.sideEffects + SideEffectsOf(es)
    && m'.releases.Keys == m.releases.Keys + ReleasesOf(es)
    && (forall n :: n in m'.releases ==> m'.releases[n] == (n in ReleasesOf(es) || IsTrue(m.releases, n)))
    && m'.markerIds == m.markerIds + MarkerIdsOf(es)
  }

  lemma LoadMarker(env: Env, m: Machine, e: Entry, completed: int, r: Round)
    requires e.decision.RecordMarker? && KnownMarker(e.decision)
    ensures
      var result := ApplyEvent(env, m, Event(e.id, ReplyTo(e, completed, r)));
      result.Ok? && SameProgramState(result.value, m) && Loaded(m.manager, result.value.manager, [e])
  {
    SingleMarker(e);
    assert |SIDE_EFFECT_MARKER| != |RELEASE_MARKER|;
    var result := ApplyEvent(env, m, Event(e.id, ReplyTo(e, completed, r)));
    assert result.Ok?;
    assert result.value.manager.releases.Keys == m.manager.releases.Keys + ReleaseAt(e);
    assert result.value.manager.sideEffects == m.manager.sideEffects + SideEffectAt(e);
    var d := e.decision.details;
    assert m.manager.releases[d := true].Keys == m.manager.releases.Keys + {d};
  }

  lemma LoadedStep(m: ManagerState, m1: ManagerState, m2: ManagerState, es: seq<Entry>, e: Entry)
    requires Loaded(m, m1, es)
    requires if e.decision.RecordMarker? then Loaded(m1, m2, [e]) else m2 == m1
    ensures Loaded(m, m2, es + [e])
  {
    hide SideEffectsOf, ReleasesOf, MarkerIdsOf;
    SnocSideEffect(es, e);
    SnocRelease(es, e);
    SnocMarkerId(es, e);
    SingleMarker(e);
  }

  lemma SingleMarker(e: Entry)
    ensures SideEffectsOf([e]) == SideEffectAt(e) && ReleasesOf([e]) == ReleaseAt(e)
    ensures MarkerIdsOf([e]) == if e.decision.RecordMarker? then {e.id} else {}
  {
    var empty: seq<Entry> := [];
    SnocSideEffect(empty, e);
    SnocRelease(empty, e);
    SnocMarkerId(empty, e);
    assert empty + [e] == [e];
  }

  lemma SnocMarkerId(es: seq<Entry>, e: Entry)
    ensures MarkerIdsOf(es + [e]) == MarkerIdsOf(es) + (if e.decision.RecordMarker? then {e.id} else {})
  {
    var all := es + [e];
    assert forall i :: 0 <= i < |es| ==> all[i] == es[i];
    assert all[|es|] == e;
  }

  lemma {:induction false} LoadMarkers(env: Env, m: Machine, es: seq<Entry>, completed: int, r: Round)
    requires KnownMarkers(es)
    ensures
      var result := ApplyEvents(env, m, EchoesOf(Marked(es), completed, r));
      result.Ok? && SameProgramState(result.value, m) && Loaded(m.manager, result.value.manager, es)
  {
    hide ApplyEvent, Loaded;
    if es != [] {
      var front, last := es[..|es| - 1], es[|es| - 1];
      LoadMarkers(env, m, front, completed, r);
      var before := ApplyEvents(env, m, EchoesOf(Marked(front), completed, r)).value;
      assert es == front + [last];
      if last.decision.RecordMarker? {
        assert EchoesOf(Marked(es), completed, r)[..|Marked(front)|] == EchoesOf(Marked(front), completed, r);
        LoadMarker(env, before, last, completed, r);
        var after := ApplyEvent(env, before, Event(last.id, ReplyTo(last, completed, r))).value;
        LoadedStep(m.manager, before.manager, after.manager, front, last);
      } else {
        assert Marked(es) == Marked(front);
        LoadedStep(m.manager, before.manager, before.manager, front, last);
      }
    } else {
      LoadedNothing(m.manager);
    }
  }

  lemma LoadedNothing(m: ManagerState)
    ensures Loaded(m, m, [])
  {
  }

  // ----- Matching echoes -----

  /** Nothing but the decision list and the lifecycle tracker differ. */
  predicate SameExceptQueue(m: Machine, m': Machine) {
    && SameProgramState(m, m')
    && m'.manager == m.manager.(decisions := m'.manager.decisions, tracker := m'.manager.tracker)
  }

  /** The echo of the oldest pending decision is accepted exactly when the decision is replayable. */
  lemma MatchEcho(env: Env, m: Machine, e: Entry, completed: int, r: Round)
    requires m.manager.decisions != [] && m.manager.decisions[0] == e
    requires !e.decision.RecordMarker? && !e.decision.Terminal() && AllAnswerable(m)
    ensures
      var result := ApplyEvent(env, m, Event(e.id, ReplyTo(e, completed, r)));
      && (result.Ok? <==> Replayable(e, r))
      && (result.Err? ==> FaultOf(e, r) == Some(result.error))
      && (result.Ok? ==> SameExceptQueue(m, result.value) && result.value.manager.decisions == m.manager.decisions[1..])
  {
    hide ApplyEvent, Absorb, ReplyTo, Replayable, FaultOf, AllAnswerable, SameExceptQueue;
    EchoAbsorbed(m.manager, e, completed, r);
    EchoUnanswered(env, m, e, completed, r);
    var event := Event(e.id, ReplyTo(e, completed, r));
    if Absorb(m.manager, event).Ok? {
      QueueShift(m, Absorbed(m, event));
    }
  }

  lemma QueueShift(m: Machine, m': Machine)
    requires m' == m.(manager := m.manager.(decisions := m'.manager.decisions, tracker := m'.manager.tracker))
    ensures SameExceptQueue(m, m')
  {
  }

  /** The state manager takes the echo of its oldest decision exactly when the decision is replayable. */
  lemma EchoAbsorbed(m: ManagerState, e: Entry, completed: int, r: Round)
    requires m.decisions != [] && m.decisions[0] == e && !e.decision.RecordMarker? && !e.decision.Terminal()
    ensures
      var result := Absorb(m, Event(e.id, ReplyTo(e, completed, r)));
      && (result.Ok? <==> Replayable(e, r))
      && (result.Err? ==> FaultOf(e, r) == Some(result.error))
      && (result.Ok? ==> result.value == m.(decisions := m.decisions[1..], tracker := result.value.tracker))
  {
    if e.decision.ScheduleActivity? && e.decision.activityId.Some? {
      Decimal.WireRoundTrip(e.decision.activityId.value);
    }
    assert Event(e.id, ReplyTo(e, completed, r)).Target() == TargetOf(e);
  }

  /** No handler is ever registered for what an echo announces. */
  lemma EchoUnanswered(env: Env, m: Machine, e: Entry, completed: int, r: Round)
    requires !e.decision.RecordMarker? && !e.decision.Terminal() && AllAnswerable(m)
    ensures
      var event := Event(e.id, ReplyTo(e, completed, r));
      ApplyEvent(env, m, event)
      == if Absorb(m.manager, event).Ok? then Ok(Absorbed(m, event)) else Err(Absorb(m.manager, event).error)
  {
    hide Absorb;
    var event := Event(e.id, ReplyTo(e, completed, r));
    var notice := NoticeOf(event);
    if notice.Some? {
      assert notice.value.target == TargetOf(e) && !Answerable(TargetOf(e));
      assert Select(HandlersAt(m.handlers, TargetOf(e)), notice.value.name) == [];
    }
  }

  lemma {:induction false} MatchEchoes(env: Env, m: Machine, es: seq<Entry>, rest: seq<Entry>, completed: int, r: Round)
    requires m.manager.decisions == es + rest && AllAnswerable(m) && NoTerminal(es)
    requires forall i :: 0 <= i < |es| ==> !es[i].decision.RecordMarker?
    ensures
      var result := ApplyEvents(env, m, EchoesOf(es, completed, r));
      && (result.Ok? <==> AllReplayable(es, r))
      && (result.Err? ==> FirstFault(es, r) == Some(result.error))
      && (result.Ok? ==> SameExceptQueue(m, result.value) && result.value.manager.decisions == rest)
  {
    if es == [] {
      assert es + rest == rest;
    } else {
      var front, last := es[..|es| - 1], es[|es| - 1];
      assert es + rest == front + ([last] + rest);
      assert NoTerminal(front) && !last.decision.Terminal();
      hide *;
      EchoesLast(env, m, es, completed, r);
      FaultsLast(es, r);
      MatchEchoes(env, m, front, [last] + rest, completed, r);
      var before := ApplyEvents(env, m, EchoesOf(front, completed, r));
      NoFault(front, r);
      if before.Ok? {
        AnswerableStill(m, before.value);
        MatchEcho(env, before.value, last, completed, r);
        var after := ApplyEvent(env, before.value, Event(last.id, ReplyTo(last, completed, r)));
        if after.Ok? {
          QueueOnly(m, before.value, after.value);
        }
      }
    }
  }

  lemma EchoesLast(env: Env, m: Machine, es: seq<Entry>, completed: int, r: Round)
    requires es != []
    ensures
      var last := es[|es| - 1];
      var before := ApplyEvents(env, m, EchoesOf(es[..|es| - 1], completed, r));
      ApplyEvents(env, m, EchoesOf(es, completed, r))
      == if before.Ok? then ApplyEvent(env, before.value, Event(last.id, ReplyTo(last, completed, r))) else before
  {
    hide ApplyEvent, ReplyTo;
    var front := es[..|es| - 1];
    assert EchoesOf(es, completed, r)[..|front|] == EchoesOf(front, completed, r);
  }

  lemma FaultsLast(es: seq<Entry>, r: Round)
    requires es != []
    ensures
      var front, last := es[..|es| - 1], es[|es| - 1];
      && (AllReplayable(es, r) <==> AllReplayable(front, r) && Replayable(last, r))
      && FirstFault(es, r) == (if FirstFault(front, r).Some? then FirstFault(front, r) else FaultOf(last, r))
  {
    hide Replayable, FaultOf;
  }

  lemma QueueOnly(a: Machine, b: Machine, c: Machine)
    requires SameExceptQueue(a, b) && SameExceptQueue(b, c)
    ensures SameExceptQueue(a, c)
  {
  }

  lemma AnswerableStill(m: Machine, m': Machine)
    requires SameExceptQueue(m, m') && AllAnswerable(m)
    ensures AllAnswerable(m')
  {
  }

  lemma {:induction false} CancelsAreInert(env: Env, m: Machine, es: seq<Event>)
    requires forall i :: 0 <= i < |es| ==> es[i].kind == WorkflowExecutionCancelRequested
    ensures ApplyEvents(env, m, es) == Ok(m)
  {
    if es != [] {
      CancelsAreInert(env, m, es[..|es| - 1]);
      CancelIsInert(env, m, es[|es| - 1]);
      hide ApplyEvent;
    }
  }

  lemma CancelIsInert(env: Env, m: Machine, e: Event)
    requires e.kind == WorkflowExecutionCancelRequested
    ensures ApplyEvent(env, m, e) == Ok(m)
  {
    hide Announce;
  }

  lemma {:induction false} ApplyEventsAppend(env: Env, m: Machine, a: seq<Event>, b: seq<Event>)
    ensures
      var first := ApplyEvents(env, m, a);
      ApplyEvents(env, m, a + b) == (if first.Ok? then ApplyEvents(env, first.value, b) else first)
  {
    hide ApplyEvent;
    if b == [] {
      assert a + b == a;
    } else {
      ApplyEventsAppend(env, m, a, b[..|b| - 1]);
      assert (a + b)[..|a + b| - 1] == a + b[..|b| - 1] && (a + b)[|a + b| - 1] == b[|b| - 1];
    }
  }
}
