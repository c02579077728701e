/** Every delivery of a run. A worker that rebuilds the workflow delivers each outcome in the history, in the windows
    that it replays as well as in the live one, in the order that `DeliveredInOrder` describes. */
module Deliveries {
  import opened Base
  import opened Decisions
  import opened Events
  import opened Histories
  import opened StateManagers
  import opened Engine
  import opened Growth
  import opened Mirror
  import opened MirrorRun
  import opened Windows
  import opened Protocol
  import opened Replay
  import opened Routing
  import opened CompletionRouting
  import opened Delivery
  import opened FiberStarts

  /** The executor after the markers of a window and its first `i` events. */
  function Midway(env: Env, m: Machine, w: WindowState, i: nat): Result<Machine>
    requires i <= |w.events|
  {
    ApplyWindow(env, m, w.(events := w.events[..i]))
  }

  /** The callbacks of a future that gets a result, each with the result; none when it fails. */
  function RungBy(callbacks: seq<nat>, outcome: Status): seq<Ring> {
    if outcome.Ready? then EachWith(callbacks, Payload("", outcome.value)) else []
  }

  /** The waiters of a future are all the fibers parked on it, each once, in the order in which they began to wait. */
  ghost predicate WaitersListed(m: Machine, f: nat)
    requires f < |m.futures| && ListFor(ListOf(m, f), f, m.futures[f].target.kind)
  {
    var waiters := Owed(m, f, 0).fibers;
    && |waiters| == |WakesIn(ListOf(m, f))|
    && (forall fiber: nat :: fiber in waiters <==> ParkedOn(m, fiber, f))
    && (forall k, l :: 0 <= k < l < |waiters| ==> waiters[k] != waiters[l])
  }

  /** After the future's own handler and `k` waiters: the callbacks have run, and no other block, and the next waiter is
      told the outcome before anything else happens. */
  ghost predicate StageInOrder(env: Env, m: Machine, f: nat, e: Event, k: nat)
    requires f < |m.futures| && ListFor(ListOf(m, f), f, m.futures[f].target.kind) && Closing(e)
    requires k <= |WakesIn(ListOf(m, f))| == |Owed(m, f, 0).fibers|
  {
    && Delivered(env, m, f, e, k).Ok?
    && Spawns(Delivered(env, m, f, e, k).value.log) == Spawns(m.log) + RungBy(m.futures[f].callbacks, Reported(e))
    && (k < |WakesIn(ListOf(m, f))| ==>
          && Delivered(env, m, f, e, k + 1).Ok?
          && ResumesNext(Delivered(env, m, f, e, k).value, Delivered(env, m, f, e, k + 1).value, f,
                         Owed(m, f, 0).fibers[k], Reported(e)))
  }

  /** The outcome that an event reports is delivered in order: the future is settled before any waiter goes on, and with
      a result its callbacks run, each once, in the order of registration, and no other block; the waiters are all the
      fibers parked on it, each once; and each is told the outcome before anything else happens. */
  ghost predicate InOrder(env: Env, m: Machine, f: nat, e: Event)
    requires f < |m.futures|
  {
    && Closing(e) && ListFor(ListOf(m, f), f, m.futures[f].target.kind) && WaitersListed(m, f)
    && (forall k: nat :: k <= |WakesIn(ListOf(m, f))| ==> StageInOrder(env, m, f, e, k))
    && Delivered(env, m, f, e, |WakesIn(ListOf(m, f))|) == Announce(env, m, NoticeOf(e).value)
  }

  /** All futures that an event closes get its outcome in order. */
  ghost predicate DeliversInOrder(env: Env, m: Machine, e: Event) {
    && Absorb(m.manager, e).Ok?
    && forall f: nat :: f < |m.futures| && m.futures[f].status.Pending? && Closes(e, m.futures[f].target) ==>
         InOrder(env, Absorbed(m, e), f, e)
  }

  // ----- Callbacks -----

  /** The own handler of a future runs the callbacks. */
  lemma OwnHandlerRings(env: Env, m: Machine, f: nat, e: Event)
    requires f < |m.futures| && Closes(e, m.futures[f].target)
    requires Call(env, m, OwnHandler(f, e), NoticeOf(e).value.payload).Ok?
    ensures
      Spawns(Call(env, m, OwnHandler(f, e), NoticeOf(e).value.payload).value.log)
      == Spawns(m.log) + RungBy(m.futures[f].callbacks, Reported(e))
  {
    hide RunCallbacks, Spawns, EachWith;
    ClosingTarget(e);
    var p := NoticeOf(e).value.payload;
    if NoticeOf(e).value.name == GoodName(e.Target().kind) {
      CallbacksSpawn(env, WithStatus(m, f, Ready(p.value)), m.futures[f].callbacks, p.value);
    } else {
      NothingMore(Spawns(m.log));
    }
  }

  /** At every stage of a delivery the callbacks have run, and nothing else. */
  lemma StageRings(env: Env, m: Machine, f: nat, e: Event, k: nat)
    requires f < |m.futures| && Closes(e, m.futures[f].target) && ListFor(ListOf(m, f), f, m.futures[f].target.kind)
    requires k <= |WakesIn(ListOf(m, f))| && Delivered(env, m, f, e, k).Ok?
    ensures
      Spawns(Delivered(env, m, f, e, k).value.log)
      == Spawns(m.log) + RungBy(m.futures[f].callbacks, Reported(e))
    decreases k
  {
    hide Spawns, RungBy, Call, Reported;
    var p, wakes := NoticeOf(e).value.payload, WakesIn(ListOf(m, f));
    var hs := [OwnHandler(f, e)] + wakes[..k];
    if k == 0 {
      assert hs == [OwnHandler(f, e)] && hs[..0] == [];
      assert CallAll(env, m, hs, p) == Call(env, m, OwnHandler(f, e), p);
      OwnHandlerRings(env, m, f, e);
    } else {
      assert hs[..|hs| - 1] == [OwnHandler(f, e)] + wakes[..k - 1] && hs[|hs| - 1] == wakes[k - 1];
      StageRings(env, m, f, e, k - 1);
      WakeRings(env, Delivered(env, m, f, e, k - 1).value, m, f, k - 1, p);
    }
  }

  lemma WakeRings(env: Env, stage: Machine, m: Machine, f: nat, k: nat, p: Payload)
    requires f < |m.futures| && ListFor(ListOf(m, f), f, m.futures[f].target.kind) && k < |WakesIn(ListOf(m, f))|
    requires Call(env, stage, WakesIn(ListOf(m, f))[k], p).Ok?
    ensures Spawns(Call(env, stage, WakesIn(ListOf(m, f))[k], p).value.log) == Spawns(stage.log)
  {
    hide WakeFiber, Spawns;
    assert WakeFor(ListOf(m, f)[k + 2], f);
    var h := WakesIn(ListOf(m, f))[k];
    WakeSpawnsNothing(env, stage, h.future, h.fiber);
  }

  // ----- The worker that remembers -----

  lemma KeptInOrder(env: Env, m: Machine, e: Event, f: nat, seen: seq<Event>, floor: int)
    requires Routed(m, seen, NoDebt(floor)) && ApplyEvent(env, m, e).Ok? && Absorb(m.manager, e).Ok?
    requires f < |m.futures| && m.futures[f].status.Pending? && Closes(e, m.futures[f].target)
    ensures InOrder(env, Absorbed(m, e), f, e)
  {
    hide Announce, Absorb, WaitersOk, FibersOk, DebtOk, LogOk, Delivered, ResumesNext, ParkedOn, WakesIn, FibersIn;
    AbsorbRouted(m, e, seen, floor);
    var m1 := Absorbed(m, e);
    assert Delivers(m1, f, e, seen);
    DeliveredInOrder(env, m1, f, e, seen, floor);
    DeliveryPhases(env, m1, f, e, seen, floor);
    assert Owed(m1, f, 0).fibers == Owed(m1, f, floor).fibers;
    forall k: nat | k <= |Owed(m1, f, 0).fibers|
      ensures StageInOrder(env, m1, f, e, k)
    {
      StageRings(env, m1, f, e, k);
    }
  }

  lemma {:induction false} FirstOutcomesPrefix(es: seq<Event>, seen: seq<Event>, horizon: int, i: nat)
    requires FirstOutcomes(es, seen, horizon) && i <= |es|
    ensures FirstOutcomes(es[..i], seen, horizon)
  {
    hide FirstOutcome;
    forall k | 0 <= k < i
      ensures FirstOutcome(es[..i][k], seen + es[..i][..k], horizon)
    {
      assert es[..i][k] == es[k] && es[..i][..k] == es[..k];
    }
  }

  /** The start of a window succeeds when the window does. */
  lemma MidwayOk(env: Env, m: Machine, w: WindowState, i: nat)
    requires ApplyWindow(env, m, w).Ok? && i < |w.events|
    ensures Midway(env, m, w, i).Ok? && Midway(env, m, w, i + 1).Ok?
    ensures ApplyEvent(env, Midway(env, m, w, i).value, w.events[i]) == Midway(env, m, w, i + 1)
    ensures Absorb(Midway(env, m, w, i).value.manager, w.events[i]).Ok?
  {
    hide ApplyEvents, ApplyEvent;
    var loaded := ApplyEvents(env, Entered(m, w), w.markers).value;
    SameEntered(m, w, i);
    SameEntered(m, w, i + 1);
    assert w.events[..i] + w.events[i..] == w.events && w.events[..i + 1] + w.events[i + 1..] == w.events;
    ApplyEventsAppend(env, loaded, w.events[..i], w.events[i..]);
    ApplyEventsAppend(env, loaded, w.events[..i + 1], w.events[i + 1..]);
    OneEvent(env, loaded, w.events, i);
    EventAbsorbed(env, Midway(env, m, w, i).value, w.events[i]);
  }

  lemma SameEntered(m: Machine, w: WindowState, i: nat)
    requires i <= |w.events|
    ensures Entered(m, w.(events := w.events[..i])) == Entered(m, w)
  {
  }

  lemma OneEvent(env: Env, m: Machine, es: seq<Event>, i: nat)
    requires i < |es| && ApplyEvents(env, m, es[..i]).Ok?
    ensures ApplyEvents(env, m, es[..i + 1]) == ApplyEvent(env, ApplyEvents(env, m, es[..i]).value, es[i])
  {
    hide ApplyEvent;
    assert es[..i + 1][..i] == es[..i];
  }

  lemma EventAbsorbed(env: Env, m: Machine, e: Event)
    requires ApplyEvent(env, m, e).Ok?
    ensures Absorb(m.manager, e).Ok?
    ensures NoticeOf(e).Some? ==> Announce(env, Absorbed(m, e), NoticeOf(e).value) == ApplyEvent(env, m, e)
  {
    hide Absorb, Announce;
  }

  lemma RoutedMidway(env: Env, m: Machine, h: seq<Event>, r: Round, i: nat)
    requires Routed(m, h, NoDebt(0)) && ValidRound(r) && m.manager.lastEventId.value <= |h|
    requires FirstOutcomes(Collect(NewEvents(h, r)).events, h, |h|)
    requires i <= |Collect(NewEvents(h, r)).events| && Midway(env, Accepted(m), Collect(NewEvents(h, r)), i).Ok?
    ensures
      var w := Collect(NewEvents(h, r));
      Routed(Midway(env, Accepted(m), w, i).value, h + w.events[..i], NoDebt(BaseId(h, r)))
  {
    var w, base := Collect(NewEvents(h, r)), BaseId(h, r);
    NewWindow(h, r);
    hide Routed, FirstOutcomes, ApplyEvents;
    assert m.manager.lastEventId.Some? by {
      CounterKnown(m, h);
    }
    EnteredRouted(m, w, h, 0);
    FirstOutcomesPrefix(w.events, h, |h|, i);
    var entered := Entered(Accepted(m), w);
    ApplyEventsRouted(env, entered, w.events[..i], h, base, |h|);
    SameEntered(Accepted(m), w, i);
    NoMarkersApplied(env, entered);
    ResultRouted(ApplyEvents(env, entered, w.events[..i]), h + w.events[..i], base);
  }

  lemma CounterKnown(m: Machine, h: seq<Event>)
    requires Routed(m, h, NoDebt(0))
    ensures m.manager.lastEventId.Some?
  {
  }

  lemma NoMarkersApplied(env: Env, m: Machine)
    ensures ApplyEvents(env, m, []) == Ok(m)
  {
  }

  lemma ResultRouted(r: Result<Machine>, seen: seq<Event>, base: int)
    requires RoutedResult(r, seen, NoDebt(base)) && r.Ok?
    ensures Routed(r.value, seen, NoDebt(base))
  {
    hide Routed;
  }

  /** In the live run of a task every delivery is in order. */
  lemma LiveDeliveries(env: Env, m: Machine, h: seq<Event>, r: Round, i: nat)
    requires Routed(m, h, NoDebt(0)) && ValidRound(r) && m.manager.lastEventId.value <= |h|
    requires FirstOutcomes(Collect(NewEvents(h, r)).events, h, |h|) && i < |Collect(NewEvents(h, r)).events|
    requires ApplyWindow(env, Accepted(m), Collect(NewEvents(h, r))).Ok?
    ensures
      var w := Collect(NewEvents(h, r));
      && Midway(env, Accepted(m), w, i).Ok?
      && DeliversInOrder(env, Midway(env, Accepted(m), w, i).value, w.events[i])
  {
    hide *;
    var w := Collect(NewEvents(h, r));
    MidwayOk(env, Accepted(m), w, i);
    RoutedMidway(env, m, h, r, i);
    var before, e := Midway(env, Accepted(m), w, i).value, w.events[i];
    AllKeptInOrder(env, before, e, h + w.events[..i], BaseId(h, r));
  }

  lemma AllKeptInOrder(env: Env, m: Machine, e: Event, seen: seq<Event>, floor: int)
    requires Routed(m, seen, NoDebt(floor)) && ApplyEvent(env, m, e).Ok? && Absorb(m.manager, e).Ok?
    ensures DeliversInOrder(env, m, e)
  {
    hide Routed, InOrder, Closes, Absorb, ApplyEvent;
    forall f: nat | f < |m.futures| && m.futures[f].status.Pending? && Closes(e, m.futures[f].target)
      ensures InOrder(env, Absorbed(m, e), f, e)
    {
      KeptInOrder(env, m, e, f, seen, floor);
    }
  }

  // ----- The worker that rebuilds -----

  /** The start of a call of several handlers succeeds with the whole, and has scheduled no more. */
  lemma {:induction false} CallsPrefix(env: Env, m: Machine, hs: seq<Handler>, k: nat, p: Payload)
    requires k <= |hs| && CallAll(env, m, hs, p).Ok?
    ensures CallAll(env, m, hs[..k], p).Ok?
    ensures CallAll(env, m, hs[..k], p).value.manager.decisions <= CallAll(env, m, hs, p).value.manager.decisions
    decreases |hs|
  {
    hide Call, Keeps, AllAnswerable;
    if k == |hs| {
      assert hs[..k] == hs;
    } else {
      var front := hs[..|hs| - 1];
      CallsPrefix(env, m, front, k, p);
      assert front[..k] == hs[..k];
      CallGrows(env, CallAll(env, m, front, p).value, hs[|hs| - 1], p);
      DecisionsGrow(CallAll(env, m, front, p).value, CallAll(env, m, hs, p).value);
    }
  }

  lemma DecisionsGrow(m: Machine, m': Machine)
    requires Extends(m, m')
    ensures m.manager.decisions <= m'.manager.decisions
  {
  }

  /** Stage `k` of a delivery, rebuilt. */
  lemma StageMirrors(ef: Env, eg: Env, mf: Machine, mg: Machine, f: nat, e: Event, k: nat, plan: seq<Entry>, base: int)
    requires Mirrors(mf, mg, plan, base) && SameEnv(ef, eg, mf.manager.replay)
    requires f < |mg.futures| && Closing(e) && ListFor(ListOf(mg, f), f, mg.futures[f].target.kind)
    requires Delivered(eg, mg, f, e, |WakesIn(ListOf(mg, f))|).Ok? && k <= |WakesIn(ListOf(mg, f))|
    requires Recorded(mf.manager.replay, Delivered(eg, mg, f, e, |WakesIn(ListOf(mg, f))|), plan)
    ensures f < |mf.futures| && ListFor(ListOf(mf, f), f, mf.futures[f].target.kind)
    ensures k <= |WakesIn(ListOf(mf, f))| && Delivered(ef, mf, f, e, k).Ok? && Delivered(eg, mg, f, e, k).Ok?
    ensures SameProgramState(Delivered(ef, mf, f, e, k).value, Delivered(eg, mg, f, e, k).value)
  {
    hide CallAll, ManagersMirror, ListFor;
    var hs, p := [OwnHandler(f, e)] + WakesIn(ListOf(mg, f)), NoticeOf(e).value.payload;
    var some := [OwnHandler(f, e)] + WakesIn(ListOf(mg, f))[..k];
    assert hs[..k + 1] == some && WakesIn(ListOf(mg, f))[..|WakesIn(ListOf(mg, f))|] == WakesIn(ListOf(mg, f));
    assert CallAll(eg, mg, hs, p).Ok?;
    CallsPrefix(eg, mg, hs, k + 1, p);
    CallAllMirrors(ef, eg, mf, mg, some, p, plan, base);
  }

  lemma StageOrderMirrors(ef: Env, eg: Env, mf: Machine, mg: Machine, f: nat, e: Event, k: nat, plan: seq<Entry>,
                          base: int)
    requires Mirrors(mf, mg, plan, base) && SameEnv(ef, eg, mf.manager.replay)
    requires f < |mg.futures| && Closing(e) && ListFor(ListOf(mg, f), f, mg.futures[f].target.kind)
    requires f < |mf.futures| && ListFor(ListOf(mf, f), f, mf.futures[f].target.kind)
    requires k <= |WakesIn(ListOf(mg, f))| == |Owed(mg, f, 0).fibers| && StageInOrder(eg, mg, f, e, k)
    requires |WakesIn(ListOf(mf, f))| == |Owed(mf, f, 0).fibers| == |WakesIn(ListOf(mg, f))|
    requires Owed(mf, f, 0) == Owed(mg, f, 0)
    requires Delivered(eg, mg, f, e, |WakesIn(ListOf(mg, f))|).Ok?
    requires Recorded(mf.manager.replay, Delivered(eg, mg, f, e, |WakesIn(ListOf(mg, f))|), plan)
    ensures StageInOrder(ef, mf, f, e, k)
  {
    hide Delivered, WakesIn, ListOf, Owed, ListFor, ManagersMirror, Spawns, RungBy, Reported, Closing, Recorded,
         SameEnv;
    StageMirrors(ef, eg, mf, mg, f, e, k, plan, base);
    if k < |WakesIn(ListOf(mg, f))| {
      StageMirrors(ef, eg, mf, mg, f, e, k + 1, plan, base);
    }
  }

  lemma SameWaiters(mf: Machine, mg: Machine, f: nat)
    requires SameProgramState(mf, mg) && f < |mg.futures|
    requires ListFor(ListOf(mg, f), f, mg.futures[f].target.kind) && WaitersListed(mg, f)
    ensures f < |mf.futures| && ListOf(mf, f) == ListOf(mg, f)
    ensures ListFor(ListOf(mf, f), f, mf.futures[f].target.kind)
    ensures Owed(mf, f, 0) == Owed(mg, f, 0) && WaitersListed(mf, f)
    ensures |WakesIn(ListOf(mf, f))| == |Owed(mf, f, 0).fibers| == |WakesIn(ListOf(mg, f))|
  {
    hide WakesIn, FibersIn, ListFor;
    assert forall fiber: nat :: ParkedOn(mf, fiber, f) <==> ParkedOn(mg, fiber, f);
  }

  /** A rebuilt worker delivers as the one that remembers does. */
  lemma OrderMirrors(ef: Env, eg: Env, mf: Machine, mg: Machine, f: nat, e: Event, plan: seq<Entry>, base: int)
    requires Mirrors(mf, mg, plan, base) && SameEnv(ef, eg, mf.manager.replay)
    requires f < |mg.futures| && InOrder(eg, mg, f, e)
    requires Recorded(mf.manager.replay, Announce(eg, mg, NoticeOf(e).value), plan)
    requires Closes(e, mg.futures[f].target)
    ensures f < |mf.futures| && InOrder(ef, mf, f, e)
  {
    hide Delivered, WakesIn, ListOf, Owed, ListFor, ManagersMirror, StageInOrder, WaitersListed, Announce, Recorded,
         SameEnv;
    SameWaiters(mf, mg, f);
    assert StageInOrder(eg, mg, f, e, |WakesIn(ListOf(mg, f))|);
    LastStageOk(eg, mg, f, e);
    forall k: nat | k <= |WakesIn(ListOf(mf, f))|
      ensures StageInOrder(ef, mf, f, e, k)
    {
      StageOrderMirrors(ef, eg, mf, mg, f, e, k, plan, base);
    }
    WholeDelivery(ef, mf, f, e);
  }

  lemma LastStageOk(env: Env, m: Machine, f: nat, e: Event)
    requires f < |m.futures| && ListFor(ListOf(m, f), f, m.futures[f].target.kind) && Closing(e)
    requires |WakesIn(ListOf(m, f))| == |Owed(m, f, 0).fibers| && StageInOrder(env, m, f, e, |WakesIn(ListOf(m, f))|)
    ensures Delivered(env, m, f, e, |WakesIn(ListOf(m, f))|).Ok?
  {
  }

  /** Delivering an outcome calls the own handler of the future and all its waiters. */
  lemma WholeDelivery(env: Env, m: Machine, f: nat, e: Event)
    requires f < |m.futures| && ListFor(ListOf(m, f), f, m.futures[f].target.kind)
    requires Closing(e) && Closes(e, m.futures[f].target)
    ensures Delivered(env, m, f, e, |WakesIn(ListOf(m, f))|) == Announce(env, m, NoticeOf(e).value)
  {
    var n := NoticeOf(e).value;
    ClosingTarget(e);
    SelectList(ListOf(m, f), f, m.futures[f].target.kind, n.name);
    var wakes := WakesIn(ListOf(m, f));
    assert wakes[..|wakes|] == wakes;
  }

  lemma AllOrderMirrors(ef: Env, eg: Env, mf: Machine, mg: Machine, e: Event, plan: seq<Entry>, base: int)
    requires Mirrors(mf, mg, plan, base) && SameEnv(ef, eg, mf.manager.replay)
    requires !e.kind.Discards() && !e.kind.MarkerRecorded?
    requires DeliversInOrder(eg, mg, e) && Recorded(mf.manager.replay, ApplyEvent(eg, mg, e), plan)
    requires ApplyEvent(eg, mg, e).Ok?
    ensures DeliversInOrder(ef, mf, e)
  {
    NewsAbsorbs(mf, mg, e, plan, base);
    EventAbsorbed(eg, mg, e);
    hide Absorb, ApplyEvent, InOrder, ManagersMirror, Announce;
    forall f: nat | f < |mf.futures| && mf.futures[f].status.Pending? && Closes(e, mf.futures[f].target)
      ensures InOrder(ef, Absorbed(mf, e), f, e)
    {
      assert InOrder(eg, Absorbed(mg, e), f, e);
      OrderMirrors(ef, eg, Absorbed(mf, e), Absorbed(mg, e), f, e, plan, base);
    }
  }

  /** Part of the news of a task schedules part of its decisions. */
  lemma PartPlanned(env: Env, m: Machine, es: seq<Event>, i: nat)
    requires News(es) && ApplyEvents(env, m, es).Ok? && i <= |es|
    ensures ApplyEvents(env, m, es[..i]).Ok?
    ensures ApplyEvents(env, m, es[..i]).value.manager.decisions <= ApplyEvents(env, m, es).value.manager.decisions
  {
    hide ApplyEvents, Keeps, AllAnswerable;
    assert es[..i] + es[i..] == es;
    ApplyEventsAppend(env, m, es[..i], es[i..]);
    ApplyEventsGrows(env, ApplyEvents(env, m, es[..i]).value, es[i..]);
    DecisionsGrow(ApplyEvents(env, m, es[..i]).value, ApplyEvents(env, m, es).value);
  }

  /** In a replayed window every delivery is in order if it was when the task was handled. */
  lemma ReplayedDelivery(ef: Env, eg: Env, f: Machine, g: Machine, h: seq<Event>, r: Round, plan: seq<Entry>, i: nat)
    requires Related(f, g, |h|) && ValidRound(r) && SameEnv(ef, eg, true) && NoTerminal(plan)
    requires ApplyWindow(eg, g, Collect(NewEvents(h, r))).Ok?
    requires plan == ApplyWindow(eg, g, Collect(NewEvents(h, r))).value.manager.decisions
    requires i < |Collect(NewEvents(h, r)).events|
    requires Midway(eg, g, Collect(NewEvents(h, r)), i).Ok?
    requires
      var w := Collect(NewEvents(h, r));
      DeliversInOrder(eg, Midway(eg, g, w, i).value, w.events[i])
    ensures
      var w := Collect(Segment(h, r, plan));
      && i < |w.events| && w.events[i] == Collect(NewEvents(h, r)).events[i]
      && Midway(ef, f, w, i).Ok? && DeliversInOrder(ef, Midway(ef, f, w, i).value, w.events[i])
  {
    hide Related, Mirrors, Tidy, EchoesOf, Marked, Unmarked, CancelEvents, ApplyEvents, ApplyEvent, NewEvents, Segment,
         Collect, DeliversInOrder;
    var w, base, wr := Collect(NewEvents(h, r)), BaseId(h, r), Collect(Segment(h, r, plan));
    NewWindow(h, r);
    LiveRunTidy(f, g, eg, h, r);
    TidyDecisions(ApplyWindow(eg, g, w).value.manager, base);
    LoadedMirrors(ef, eg, f, g, h, r, plan);
    RecordedWindow(h, r, plan);
    MidwayOk(eg, g, w, i);
    var loaded, g0 := ApplyEvents(ef, Entered(f, wr), wr.markers).value, Entered(g, w);
    assert wr.events[..i] == w.events[..i];
    SameEntered(f, wr, i);
    SameEntered(g, w, i);
    SameEntered(g, w, i + 1);
    NoMarkersApplied(eg, g0);
    PartPlanned(eg, g0, w.events, i);
    PartPlanned(eg, g0, w.events, i + 1);
    ApplyEventsMirrors(ef, eg, loaded, g0, w.events[..i], plan, base);
    AllOrderMirrors(ef, eg, Midway(ef, f, wr, i).value, Midway(eg, g, w, i).value, w.events[i], plan, base);
  }

  /** In the live window of a rebuilt worker every delivery is in order. */
  lemma LiveDelivery(ef: Env, f: Machine, g: Machine, h: seq<Event>, r: Round, i: nat)
    requires Related(f, g, |h|) && ValidRound(r) && ApplyWindow(ef, g, Collect(NewEvents(h, r))).Ok?
    requires i < |Collect(NewEvents(h, r)).events|
    requires Midway(ef, g, Collect(NewEvents(h, r)), i).Ok?
    requires
      var w := Collect(NewEvents(h, r));
      DeliversInOrder(ef, Midway(ef, g, w, i).value, w.events[i])
    ensures
      var w := Collect(NewEvents(h, r));
      Midway(ef, f, w, i).Ok? && DeliversInOrder(ef, Midway(ef, f, w, i).value, w.events[i])
  {
    var w := Collect(NewEvents(h, r));
    NewWindow(h, r);
    MidwayOk(ef, g, w, i);
    hide DeliversInOrder, ApplyEvents, ApplyEvent;
    NoMarkersApplied(ef, Entered(f, w));
    NoMarkersApplied(ef, Entered(g, w));
    SameEntered(f, w, i);
    SameEntered(g, w, i);
    ApplyEventsMirrors(ef, ef, Entered(f, w), Entered(g, w), w.events[..i], [], BaseId(h, r));
    AllOrderMirrors(ef, ef, Midway(ef, f, w, i).value, Midway(ef, g, w, i).value, w.events[i], [], BaseId(h, r));
  }

  // ----- The run of a rebuilt worker -----

  /** The history that the worker of the last task reads. */
  function TaskHistory(code: Code, budget: nat, rounds: seq<Round>): seq<Event>
    requires rounds != [] && KeptRun(START, code, budget, rounds[..|rounds| - 1]).Ok?
  {
    var h := KeptRun(START, code, budget, rounds[..|rounds| - 1]).value.history;
    h + NewEvents(h, rounds[|rounds| - 1])
  }

  /** Round `n` of a run, with all that is known of it. */
  lemma RoundAt(code: Code, budget: nat, rounds: seq<Round>, n: nat)
    requires n < |rounds| && ValidRounds(rounds) && KeptRun(START, code, budget, rounds).Ok?
    ensures ValidRound(rounds[n]) && ValidRounds(rounds[..n])
    ensures KeptRun(START, code, budget, rounds[..n]).Ok? && KeptRun(START, code, budget, rounds[..n + 1]).Ok?
    ensures
      var before := KeptRun(START, code, budget, rounds[..n]).value;
      var after := KeptRun(START, code, budget, rounds[..n + 1]).value;
      var env, r := Env(code, rounds[n].oracle, budget), rounds[n];
      && NoTerminal(before.issued) && after.issued == after.machine.manager.decisions
      && ApplyWindow(env, Accepted(before.machine), Collect(NewEvents(before.history, r))) == Ok(after.machine)
  {
    hide *;
    KeptLogGrows(START, code, budget, rounds, n);
    KeptLogGrows(START, code, budget, rounds, n + 1);
    LastRound(START, code, budget, rounds[..n + 1]);
    assert rounds[..n + 1][..n] == rounds[..n];
    ValidPrefix(rounds, n);
    ValidAt(rounds, n);
  }

  lemma ValidAt(rounds: seq<Round>, n: nat)
    requires ValidRounds(rounds) && n < |rounds|
    ensures ValidRound(rounds[n])
  {
    hide ValidRound;
  }

  lemma {:induction false} TimelyAt(code: Code, budget: nat, rounds: seq<Round>, n: nat)
    requires TimelyOutcomes(code, budget, rounds) && n < |rounds| && KeptRun(START, code, budget, rounds[..n]).Ok?
    ensures TimelyOutcomes(code, budget, rounds[..n])
    ensures
      var h := KeptRun(START, code, budget, rounds[..n]).value.history;
      FirstOutcomes(Collect(NewEvents(h, rounds[n])).events, h, |h|)
    decreases |rounds|
  {
    hide KeptRun, FirstOutcomes, Collect;
    var front := rounds[..|rounds| - 1];
    if n < |front| {
      assert front[..n] == rounds[..n];
      TimelyAt(code, budget, front, n);
    }
  }

  /** The windows of a task's history, and the part of it before window `n`. */
  lemma WindowAt(code: Code, budget: nat, rounds: seq<Round>, n: nat)
    requires n < |rounds| && ValidRounds(rounds) && KeptRun(START, code, budget, rounds).Ok?
    ensures KeptRun(START, code, budget, rounds[..n]).Ok? && KeptRun(START, code, budget, rounds[..n + 1]).Ok?
    ensures KeptRun(START, code, budget, rounds[..|rounds| - 1]).Ok?
    ensures
      var windows := Split(TaskHistory(code, budget, rounds));
      var h := KeptRun(START, code, budget, rounds[..n]).value.history;
      && |windows| == |rounds| && windows[..n] == Split(h)
      && windows[n]
         == if n + 1 == |rounds| then NewEvents(h, rounds[n])
            else Segment(h, rounds[n], KeptRun(START, code, budget, rounds[..n + 1]).value.issued)
  {
    hide *;
    var last := |rounds| - 1;
    var front := rounds[..last];
    RoundAt(code, budget, rounds, n);
    RoundAt(code, budget, rounds, last);
    WindowsAreTasks(code, budget, front, rounds[last]);
    StartDecided();
    HistoryWindows(START, code, budget, rounds[..n], []);
    SegmentsPart(code, budget, front, n);
    assert front[..n] == rounds[..n];
    if n < last {
      SegmentsPart(code, budget, front, n + 1);
      assert front[..n + 1] == rounds[..n + 1] && rounds[..n + 1][..n] == rounds[..n];
      SegmentsLast(START, code, budget, rounds[..n + 1]);
    } else {
      assert front[..n] == front;
    }
    TaskHistoryIs(code, budget, rounds);
  }

  /** What happened before a task, a signal at the very front included, is in the window of that task and no other. */
  lemma NewsInOwnWindow(code: Code, budget: nat, rounds: seq<Round>, n: nat)
    requires n < |rounds| && ValidRounds(rounds) && KeptRun(START, code, budget, rounds).Ok?
    ensures KeptRun(START, code, budget, rounds[..|rounds| - 1]).Ok? && KeptRun(START, code, budget, rounds[..n]).Ok?
    ensures
      var windows := Split(TaskHistory(code, budget, rounds));
      && n < |windows|
      && Flatten(windows[..n]) == KeptRun(START, code, budget, rounds[..n]).value.history
      && |rounds[n].noise| < |windows[n]|
      && forall i :: 0 <= i < |rounds[n].noise| ==> windows[n][i].kind == rounds[n].noise[i]
  {
    hide KeptRun, ValidRounds, Split, TaskHistory;
    WindowAt(code, budget, rounds, n);
    WindowsPartitionHistory(KeptRun(START, code, budget, rounds[..n]).value.history);
  }

  lemma TaskHistoryIs(code: Code, budget: nat, rounds: seq<Round>)
    requires rounds != [] && KeptRun(START, code, budget, rounds[..|rounds| - 1]).Ok?
    ensures
      var h := KeptRun(START, code, budget, rounds[..|rounds| - 1]).value.history;
      TaskHistory(code, budget, rounds) == h + NewEvents(h, rounds[|rounds| - 1])
  {
  }

  lemma {:induction false} SegmentsPart(code: Code, budget: nat, rounds: seq<Round>, n: nat)
    requires n <= |rounds| && ValidRounds(rounds) && KeptRun(START, code, budget, rounds).Ok?
    ensures KeptRun(START, code, budget, rounds[..n]).Ok?
    ensures |Segments(START, code, budget, rounds)| == |rounds|
    ensures Segments(START, code, budget, rounds)[..n] == Segments(START, code, budget, rounds[..n])
    decreases |rounds|
  {
    hide *;
    KeptLogGrows(START, code, budget, rounds, n);
    if rounds == [] {
      NoRounds(START, code, budget);
      assert rounds[..n] == [];
    } else {
      var front := rounds[..|rounds| - 1];
      FrontValid(rounds);
      SegmentsLast(START, code, budget, rounds);
      SegmentsPart(code, budget, front, if n < |rounds| then n else 0);
      if n < |rounds| {
        assert front[..n] == rounds[..n];
      } else {
        assert rounds[..n] == rounds;
      }
    }
  }

  /** The echoes of commands report no outcome to anything that has a future. */
  lemma EchoesQuiet(es: seq<Entry>, base: int, first: int, r: Round)
    ensures forall e :: e in EchoesOf(es, base, r) + CancelEvents(first, r) ==> !Closing(e)
  {
  }

  lemma QuietInOrder(env: Env, m: Machine, e: Event)
    requires !Closing(e) && Absorb(m.manager, e).Ok?
    ensures DeliversInOrder(env, m, e)
  {
  }

  /** Every delivery in a window that is replayed. */
  lemma ReplayedDeliveries(ef: Env, eg: Env, f: Machine, prior: Machine, h: seq<Event>, r: Round, plan: seq<Entry>,
                           i: nat)
    requires Related(f, Accepted(prior), |h|) && ValidRound(r) && SameEnv(ef, eg, true)
    requires NoTerminal(plan) && AllReplayable(plan, r)
    requires ApplyWindow(eg, Accepted(prior), Collect(NewEvents(h, r))).Ok?
    requires plan == ApplyWindow(eg, Accepted(prior), Collect(NewEvents(h, r))).value.manager.decisions
    requires Routed(prior, h, NoDebt(0)) && prior.manager.lastEventId.value <= |h|
    requires FirstOutcomes(Collect(NewEvents(h, r)).events, h, |h|)
    requires i < |Collect(Segment(h, r, plan)).events|
    ensures
      var w := Collect(Segment(h, r, plan));
      Midway(ef, f, w, i).Ok? && DeliversInOrder(ef, Midway(ef, f, w, i).value, w.events[i])
  {
    hide *;
    var news, w, base := Collect(NewEvents(h, r)).events, Collect(Segment(h, r, plan)), BaseId(h, r);
    WindowReplay(ef, eg, f, Accepted(prior), h, r, plan);
    MidwayOk(ef, f, w, i);
    if i < |news| {
      LiveDeliveries(eg, prior, h, r, i);
      ReplayedDelivery(ef, eg, f, Accepted(prior), h, r, plan, i);
    } else {
      LiveRunTidy(f, Accepted(prior), eg, h, r);
      TidyDecisions(ApplyWindow(eg, Accepted(prior), Collect(NewEvents(h, r))).value.manager, base);
      RecordedWindow(h, r, plan);
      var tail := EchoesOf(Unmarked(plan), base, r) + CancelEvents(base + |plan| + 1, r);
      assert w.events[i] == tail[i - |news|];
      EchoesQuiet(Unmarked(plan), base, base + |plan| + 1, r);
      QuietInOrder(ef, Midway(ef, f, w, i).value, w.events[i]);
    }
  }

  /** Every delivery of a worker that rebuilds the workflow for a task, in each window of the history, replayed or live:
      all futures that an event closes get its outcome in order. */
  lemma EveryDeliveryInOrder(code: Code, budget: nat, rounds: seq<Round>, n: nat, i: nat)
    requires n < |rounds| && ValidRounds(rounds) && TimelyOutcomes(code, budget, rounds)
    requires KeptRun(START, code, budget, rounds).Ok? && ReplayableRun(START, code, budget, rounds[..|rounds| - 1])
    ensures KeptRun(START, code, budget, rounds[..|rounds| - 1]).Ok?
    ensures
      var env, windows := Env(code, rounds[|rounds| - 1].oracle, budget), Split(TaskHistory(code, budget, rounds));
      && |windows| == |rounds| && ApplyWindows(env, FRESH_MACHINE, windows[..n]).Ok?
      && var m, w := ApplyWindows(env, FRESH_MACHINE, windows[..n]).value, Collect(windows[n]);
         i < |w.events| ==>
           Midway(env, m, w, i).Ok? && DeliversInOrder(env, Midway(env, m, w, i).value, w.events[i])
  {
    hide *;
    var env, front := Env(code, rounds[|rounds| - 1].oracle, budget), rounds[..|rounds| - 1];
    WindowAt(code, budget, rounds, n);
    RoundAt(code, budget, rounds, n);
    var before := KeptRun(START, code, budget, rounds[..n]).value;
    var after := KeptRun(START, code, budget, rounds[..n + 1]).value;
    var h, r := before.history, rounds[n];
    ReplayablePrefix(START, code, budget, front, n);
    assert front[..n] == rounds[..n];
    ReplayHistory(code, budget, rounds[..n], env);
    ExecuteIs(env, h);
    TimelyAt(code, budget, rounds, n);
    RoutedRounds(code, budget, rounds[..n]);
    CounterBehind(code, budget, rounds[..n]);
    var f, w := Execute(env, h).value, Collect(Split(TaskHistory(code, budget, rounds))[n]);
    if i < |w.events| {
      if n + 1 == |rounds| {
        LiveDeliveries(env, before.machine, h, r, i);
        LiveDelivery(env, f, Accepted(before.machine), h, r, i);
      } else {
        var eg := Env(code, r.oracle, budget);
        SameProgram(env, eg);
        RoundAt(code, budget, rounds, n + 1);
        ReplayablePrefix(START, code, budget, front, n + 1);
        assert front[..n + 1] == rounds[..n + 1] && rounds[..n + 1][..n] == rounds[..n];
        LastReplayable(START, code, budget, rounds[..n + 1]);
        ReplayedDeliveries(env, eg, f, before.machine, h, r, after.issued, i);
      }
    }
  }

  lemma ExecuteIs(env: Env, h: seq<Event>)
    ensures Execute(env, h) == ApplyWindows(env, FRESH_MACHINE, Split(h))
  {
  }
}
