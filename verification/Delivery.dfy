/** The order in which an outcome is delivered: the future is settled, then every waiting fiber is resumed, once. */
module Delivery {
  import opened Base
  import opened Decisions
  import opened Events
  import opened StateManagers
  import opened Engine
  import opened Growth
  import opened Routing
  import opened Runs

  /** Earlier stages of a delivery that succeeds succeed. */
  lemma StageOk(env: Env, m: Machine, f: nat, e: Event, k: nat)
    requires f < |m.futures| && NoticeOf(e).Some? && ListFor(ListOf(m, f), f, m.futures[f].target.kind)
    requires k <= |WakesIn(ListOf(m, f))| && Delivered(env, m, f, e, |WakesIn(ListOf(m, f))|).Ok?
    ensures Delivered(env, m, f, e, k).Ok?
  {
    var wakes := WakesIn(ListOf(m, f));
    CallAllPrefixFails(env, m, [OwnHandler(f, e)] + wakes[..k], wakes[k..], NoticeOf(e).value.payload);
    assert [OwnHandler(f, e)] + wakes[..k] + wakes[k..] == [OwnHandler(f, e)] + wakes[..|wakes|];
  }

  lemma StageNext(env: Env, m: Machine, f: nat, e: Event, k: nat)
    requires f < |m.futures| && NoticeOf(e).Some? && ListFor(ListOf(m, f), f, m.futures[f].target.kind)
    requires k < |WakesIn(ListOf(m, f))| && Delivered(env, m, f, e, k).Ok?
    ensures
      Delivered(env, m, f, e, k + 1)
      == Call(env, Delivered(env, m, f, e, k).value, WakesIn(ListOf(m, f))[k], NoticeOf(e).value.payload)
  {
    hide Call;
    var wakes := WakesIn(ListOf(m, f));
    var hs := [OwnHandler(f, e)] + wakes[..k + 1];
    assert hs[..|hs| - 1] == [OwnHandler(f, e)] + wakes[..k] && hs[|hs| - 1] == wakes[k];
  }

  /** Resuming a fiber logs the answer to its wait before anything that it does then. */
  lemma WakeLogs(env: Env, m: Machine, f: nat, fiber: nat)
    requires ParkedOn(m, fiber, f) && f < |m.futures| && !m.futures[f].status.Pending?
    requires WakeFiber(env, m, f, fiber).Ok?
    ensures
      m.log + [Answered(fiber, Wait(f), Observed(m.futures[f].status))] <= WakeFiber(env, m, f, fiber).value.log
  {
    hide Run, Keeps, AllAnswerable;
    var resumed := m.(fibers := m.fibers[fiber := NotParked]);
    var e := Answered(fiber, Wait(f), Observed(m.futures[f].status));
    RunGrows(env, Logged(resumed, e), fiber, m.fibers[fiber].root, env.budget);
  }

  /** At every stage the future has the outcome that the event reports, and the next waiter is still parked on it. */
  lemma StageFacts(m: Machine, f: nat, e: Event, seen: seq<Event>, floor: int, stage: Machine, k: nat, target: Target)
    requires f < |m.futures| && ListFor(ListOf(m, f), f, m.futures[f].target.kind)
    requires Closes(e, target) && target == m.futures[f].target
    requires
      var debt := Owed(m, f, floor);
      k <= |debt.fibers| && Routed(stage, seen + [e], debt.(fibers := debt.fibers[k..]))
    requires f < |stage.futures| && stage.futures[f].target == target
    ensures stage.futures[f].status == Reported(e)
    ensures k < |Owed(m, f, floor).fibers| ==> ParkedOn(stage, Owed(m, f, floor).fibers[k], f)
  {
    VerdictSnoc(seen, e, target);
    var debt := Owed(m, f, floor);
    hide HandlersOk, FibersOk, WaitersOk, LogOk, Verdict;
    if k < |debt.fibers| {
      assert debt.fibers[k..][0] == debt.fibers[k];
    }
  }

  // ----- Futures stay what they are -----

  /** Futures are only added, and keep their targets. */
  predicate KeepsFutures(m: Machine, m': Machine) {
    && |m.futures| <= |m'.futures|
    && forall i :: 0 <= i < |m.futures| ==> m'.futures[i].target == m.futures[i].target
  }

  lemma PerformKeepsFutures(env: Env, m: Machine, r: Request)
    ensures KeepsFutures(m, Perform(env, m, r).machine)
  {
    hide ScheduleDecision, Register;
  }

  lemma {:induction false} RunKeepsFutures(env: Env, m: Machine, fiber: nat, root: bool, steps: nat)
    requires Run(env, m, fiber, root, steps).Ok?
    ensures KeepsFutures(m, Run(env, m, fiber, root, steps).value)
    decreases steps
  {
    hide Perform, ScheduleDecision, Register;
    var r := env.code(fiber, m.log);
    if !r.Return? && !r.Raise? && !MustPark(m, r) {
      PerformKeepsFutures(env, m, r);
      var reply := Perform(env, m, r);
      RunKeepsFutures(env, Logged(reply.machine, Answered(fiber, r, reply.answer)), fiber, root, steps - 1);
    }
  }

  lemma KeepsFuturesClosed(env: Env)
    ensures Closed(env, KeepsFutures)
  {
    hide Run;
    forall m: Machine, root, e | Starts(root, e, |m.fibers|) && Launch(env, m, root, e).Ok?
      ensures KeepsFutures(m, Launch(env, m, root, e).value)
    {
      RunKeepsFutures(env, Logged(m.(fibers := m.fibers + [NotParked]), e), |m.fibers|, root, env.budget);
    }
    forall m: Machine, f: nat, fiber: nat | f < |m.futures| && WakeFiber(env, m, f, fiber).Ok?
      ensures KeepsFutures(m, WakeFiber(env, m, f, fiber).value)
    {
      if !m.futures[f].status.Pending? {
        var Parked(root, g) := m.fibers[fiber];
        var e := Answered(fiber, Wait(g), Observed(m.futures[g].status));
        RunKeepsFutures(env, Logged(m.(fibers := m.fibers[fiber := NotParked]), e), fiber, root, env.budget);
      }
    }
  }

  lemma StageKeepsFutures(env: Env, m: Machine, f: nat, e: Event, k: nat)
    requires f < |m.futures| && NoticeOf(e).Some? && ListFor(ListOf(m, f), f, m.futures[f].target.kind)
    requires k <= |WakesIn(ListOf(m, f))| && Delivered(env, m, f, e, k).Ok?
    ensures KeepsFutures(m, Delivered(env, m, f, e, k).value)
  {
    KeepsFuturesClosed(env);
    CallAllClosed(env, m, [OwnHandler(f, e)] + WakesIn(ListOf(m, f))[..k], NoticeOf(e).value.payload, KeepsFutures);
  }

  // ----- The theorem -----

  /** A fiber parked on an unfinished future is among its waiters. */
  lemma WaiterListed(m: Machine, f: nat, fiber: nat, seen: seq<Event>, floor: int)
    requires Routed(m, seen, NoDebt(floor)) && f < |m.futures| && m.futures[f].status.Pending?
    requires ListFor(ListOf(m, f), f, m.futures[f].target.kind) && ParkedOn(m, fiber, f)
    ensures fiber in Owed(m, f, floor).fibers
  {
    assert Sleeps(m, fiber, NoDebt(floor));
    var k :| WaitsAt(m, fiber, f, k);
    assert WakesIn(ListOf(m, f))[k - 2] == Wake(f, fiber);
    assert Owed(m, f, floor).fibers[k - 2] == fiber;
  }

  /** Stage `k` of a delivery: waiter `k` is resumed with the outcome, before it does anything else. */
  ghost predicate ResumesNext(before: Machine, after: Machine, f: nat, fiber: nat, outcome: Status) {
    && f < |before.futures| && before.futures[f].status == outcome
    && before.log + [Answered(fiber, Wait(f), Observed(outcome))] <= after.log
  }

  lemma StageResumes(env: Env, m: Machine, f: nat, e: Event, seen: seq<Event>, floor: int, k: nat)
    requires Routed(m, seen, NoDebt(floor)) && Delivers(m, f, e, seen)
    requires k < |Owed(m, f, floor).fibers|
    requires NoticeOf(e).Some? && k + 1 <= |WakesIn(ListOf(m, f))|
    requires Delivered(env, m, f, e, k).Ok? && Delivered(env, m, f, e, k + 1).Ok?
    ensures
      ResumesNext(Delivered(env, m, f, e, k).value, Delivered(env, m, f, e, k + 1).value, f,
                  Owed(m, f, floor).fibers[k], Reported(e))
  {
    hide *;
    DeliveryFacts(m, f, e, seen, floor);
    var fiber, target := Owed(m, f, floor).fibers[k], m.futures[f].target;
    var stage := Delivered(env, m, f, e, k).value;
    WakeAt(m, f, floor, k);
    StageRouted(env, m, f, e, seen, floor, k);
    StageKeepsFutures(env, m, f, e, k);
    SameTarget(m, stage, f);
    StageOwed(env, m, f, e, seen, floor, stage, k);
    StageFacts(m, f, e, seen, floor, stage, k, target);
    StageNext(env, m, f, e, k);
    CallWakes(env, stage, f, fiber, NoticeOf(e).value.payload);
    ReportedIsFinal(e, target);
    WakeLogs(env, stage, f, fiber);
    Resumed(stage, Delivered(env, m, f, e, k + 1).value, f, fiber, Reported(e));
  }

  lemma DeliveryFacts(m: Machine, f: nat, e: Event, seen: seq<Event>, floor: int)
    requires Routed(m, seen, NoDebt(floor)) && Delivers(m, f, e, seen)
    ensures f < |m.futures| && Closes(e, m.futures[f].target)
    ensures ListFor(ListOf(m, f), f, m.futures[f].target.kind)
  {
  }

  lemma WakeAt(m: Machine, f: nat, floor: int, k: nat)
    requires f < |m.futures| && ListFor(ListOf(m, f), f, m.futures[f].target.kind)
    requires k < |Owed(m, f, floor).fibers|
    ensures k < |WakesIn(ListOf(m, f))| && WakesIn(ListOf(m, f))[k] == Wake(f, Owed(m, f, floor).fibers[k])
  {
    assert WakeFor(ListOf(m, f)[k + 2], f);
  }

  lemma SameTarget(m: Machine, stage: Machine, f: nat)
    requires KeepsFutures(m, stage) && f < |m.futures|
    ensures f < |stage.futures| && stage.futures[f].target == m.futures[f].target
  {
  }

  lemma StageOwed(env: Env, m: Machine, f: nat, e: Event, seen: seq<Event>, floor: int, stage: Machine, k: nat)
    requires f < |m.futures| && ListFor(ListOf(m, f), f, m.futures[f].target.kind)
    requires k <= |Owed(m, f, floor).fibers|
    requires RoutedResult(Ok(stage), seen + [e], Owed(m, f, floor).(fibers := Owed(m, f, floor).fibers[k..]))
    ensures Routed(stage, seen + [e], Owed(m, f, floor).(fibers := Owed(m, f, floor).fibers[k..]))
  {
    hide Routed;
  }

  lemma CallWakes(env: Env, m: Machine, f: nat, fiber: nat, p: Payload)
    requires f < |m.futures|
    ensures Call(env, m, Wake(f, fiber), p) == WakeFiber(env, m, f, fiber)
  {
    hide WakeFiber;
  }

  lemma Resumed(before: Machine, after: Machine, f: nat, fiber: nat, outcome: Status)
    requires f < |before.futures| && before.futures[f].status == outcome
    requires before.log + [Answered(fiber, Wait(f), Observed(outcome))] <= after.log
    ensures ResumesNext(before, after, f, fiber, outcome)
  {
  }

  lemma ReportedIsFinal(e: Event, target: Target)
    requires Closes(e, target)
    ensures !Reported(e).Pending?
  {
  }

  /** The future is settled before any waiter goes on; the waiters are all the fibers that were parked on it, each of
      them once, in the order in which they began to wait; and each goes on with the outcome before anything else
      happens to it. */
  lemma DeliveredInOrder(env: Env, m: Machine, f: nat, e: Event, seen: seq<Event>, floor: int)
    requires Routed(m, seen, NoDebt(floor)) && Delivers(m, f, e, seen)
    requires Announce(env, m, NoticeOf(e).value).Ok?
    ensures NoticeOf(e).Some? && |Owed(m, f, floor).fibers| == |WakesIn(ListOf(m, f))|
    ensures
      var waiters := Owed(m, f, floor).fibers;
      && (forall fiber: nat :: fiber in waiters <==> ParkedOn(m, fiber, f))
      && (forall k, l :: 0 <= k < l < |waiters| ==> waiters[k] != waiters[l])
      && (forall k: nat :: k <= |waiters| ==> Delivered(env, m, f, e, k).Ok?)
      && (forall k: nat :: k < |waiters| ==>
            ResumesNext(Delivered(env, m, f, e, k).value, Delivered(env, m, f, e, k + 1).value, f, waiters[k],
                        Reported(e)))
      && Delivered(env, m, f, e, |waiters|) == Announce(env, m, NoticeOf(e).value)
  {
    var waiters := Owed(m, f, floor).fibers;
    WaitersAreParked(m, f, seen, floor);
    DeliveryPhases(env, m, f, e, seen, floor);
    hide Routed, Delivers, Delivered, Announce, ResumesNext, Owed, WakesIn, ParkedOn;
    forall k: nat | k <= |waiters|
      ensures Delivered(env, m, f, e, k).Ok?
    {
      StageOk(env, m, f, e, k);
    }
    forall k: nat | k < |waiters|
      ensures
        ResumesNext(Delivered(env, m, f, e, k).value, Delivered(env, m, f, e, k + 1).value, f, waiters[k], Reported(e))
    {
      StageResumes(env, m, f, e, seen, floor, k);
    }
  }

  lemma WaitersAreParked(m: Machine, f: nat, seen: seq<Event>, floor: int)
    requires Routed(m, seen, NoDebt(floor)) && f < |m.futures| && m.futures[f].status.Pending?
    ensures ListFor(ListOf(m, f), f, m.futures[f].target.kind)
    ensures |Owed(m, f, floor).fibers| == |WakesIn(ListOf(m, f))|
    ensures forall fiber: nat :: fiber in Owed(m, f, floor).fibers <==> ParkedOn(m, fiber, f)
    ensures forall k, l :: 0 <= k < l < |Owed(m, f, floor).fibers| ==>
      Owed(m, f, floor).fibers[k] != Owed(m, f, floor).fibers[l]
  {
    var rs, waiters := ListOf(m, f), Owed(m, f, floor).fibers;
    assert WaitersOf(m, f);
    forall k | 0 <= k < |waiters|
      ensures rs[k + 2].handler == Wake(f, waiters[k]) && ParkedOn(m, waiters[k], f)
    {
      assert WakeFor(rs[k + 2], f);
    }
    forall fiber: nat | ParkedOn(m, fiber, f)
      ensures fiber in waiters
    {
      WaiterListed(m, f, fiber, seen, floor);
    }
  }
}
