/** Completions reach exactly the futures they answer. The invariant here ties futures, handlers and parked fibers of
    a running executor to the events it has been given. */
module Routing {
  import opened Base
  import opened Decisions
  import opened Events
  import opened StateManagers
  import opened Engine

  // ----- What the history says about a command -----

  predicate TrackedKind(k: TargetType) {
    k == Activity || k == Timer || k == ChildWorkflow
  }

  /** The event reports the outcome of a command that a future stands for. */
  predicate Closing(e: Event) {
    NoticeOf(e).Some? && TrackedKind(NoticeOf(e).value.target.kind)
  }

  predicate Closes(e: Event, t: Target) {
    Closing(e) && NoticeOf(e).value.target == t
  }

  /** The outcome an event reports. */
  function Reported(e: Event): Status
    requires Closing(e)
  {
    var n := NoticeOf(e).value;
    if n.name == OnFailed then Broken(n.payload.text, n.payload.value) else Ready(n.payload.value)
  }

  /** The outcome of a command according to all events so far. */
  function Verdict(es: seq<Event>, t: Target): Status {
    if es == [] then Pending
    else
      var last := es[|es| - 1];
      if Closes(last, t) then Reported(last) else Verdict(es[..|es| - 1], t)
  }

  lemma VerdictSnoc(es: seq<Event>, e: Event, t: Target)
    ensures Verdict(es + [e], t) == if Closes(e, t) then Reported(e) else Verdict(es, t)
  {
    assert (es + [e])[..|es|] == es;
  }

  // ----- The invariant -----

  function GoodName(k: TargetType): Name {
    if k == Timer then OnFired else OnCompleted
  }

  function BadName(k: TargetType): Name {
    if k == Timer then OnCanceled else OnFailed
  }

  predicate WakeFor(r: Registration, f: nat) {
    r.name == Any && r.handler.Wake? && r.handler.future == f
  }

  /** The handlers of a future's target: its own two first, then one per waiting fiber. */
  predicate ListFor(rs: seq<Registration>, f: nat, k: TargetType) {
    && |rs| >= 2
    && rs[0] == Registration(GoodName(k), Settle(f))
    && rs[1] == Registration(BadName(k), Break(f))
    && forall i :: 2 <= i < |rs| ==> WakeFor(rs[i], f)
  }

  /** Fibers that a dispatch in progress still has to resume, the future they wait for, and the value that the id
      counter had when the window began. */
  datatype Debt = Debt(floor: int, future: nat, fibers: seq<nat>)

  function NoDebt(floor: int): Debt {
    Debt(floor, 0, [])
  }

  predicate LastKnown(m: Machine) {
    m.manager.lastEventId.Some?
  }

  /** Every future has the outcome that the events give it, and outcomes answer commands of the past. */
  ghost predicate FuturesOk(m: Machine, seen: seq<Event>)
    requires LastKnown(m)
  {
    var last := m.manager.lastEventId.value;
    && (forall i :: 0 <= i < |m.futures| ==>
          && TrackedKind(m.futures[i].target.kind) && m.futures[i].target.id <= last
          && m.futures[i].status == Verdict(seen, m.futures[i].target))
    && (forall i, j :: 0 <= i < j < |m.futures| ==> m.futures[i].target.id < m.futures[j].target.id)
    && (forall t :: !Verdict(seen, t).Pending? ==> t.id <= last)
  }

  predicate OwnedBy(m: Machine, t: Target, i: int) {
    0 <= i < |m.futures| && m.futures[i].target == t
  }

  predicate WorkflowHandler(r: Registration) {
    r == Registration(OnStarted, Begin) || (r.name == OnSignaled && r.handler.SignalBlock?)
  }

  ghost predicate KeysOwned(m: Machine) {
    forall t :: t in m.handlers ==> t == WORKFLOW_TARGET || exists i :: OwnedBy(m, t, i)
  }

  predicate ListsOk(m: Machine) {
    forall i :: 0 <= i < |m.futures| ==>
      m.futures[i].target in m.handlers && ListFor(m.handlers[m.futures[i].target], i, m.futures[i].target.kind)
  }

  predicate WorkflowListOk(m: Machine) {
    WORKFLOW_TARGET in m.handlers ==>
      forall k :: 0 <= k < |m.handlers[WORKFLOW_TARGET]| ==> WorkflowHandler(m.handlers[WORKFLOW_TARGET][k])
  }

  ghost predicate HandlersOk(m: Machine) {
    KeysOwned(m) && ListsOk(m) && WorkflowListOk(m)
  }

  predicate ParkedOn(m: Machine, fiber: nat, f: nat) {
    fiber < |m.fibers| && m.fibers[fiber].Parked? && m.fibers[fiber].future == f
  }

  function ListOf(m: Machine, f: nat): seq<Registration>
    requires f < |m.futures|
  {
    HandlersAt(m.handlers, m.futures[f].target)
  }

  predicate WaitsAt(m: Machine, fiber: nat, f: nat, k: int)
    requires f < |m.futures|
  {
    2 <= k < |ListOf(m, f)| && ListOf(m, f)[k] == Registration(Any, Wake(f, fiber))
  }

  /** A parked fiber waits for an unfinished future that will wake it, or is about to be resumed. */
  ghost predicate Sleeps(m: Machine, fiber: nat, debt: Debt)
    requires fiber < |m.fibers| && m.fibers[fiber].Parked?
  {
    var f := m.fibers[fiber].future;
    && f < |m.futures|
    && ((m.futures[f].status.Pending? && exists k :: WaitsAt(m, fiber, f, k))
        || (f == debt.future && fiber in debt.fibers))
  }

  ghost predicate FibersOk(m: Machine, debt: Debt) {
    forall fiber: nat :: fiber < |m.fibers| && m.fibers[fiber].Parked? ==> Sleeps(m, fiber, debt)
  }

  /** Each wake-up registered for an unfinished future is for one fiber that is parked on it. */
  predicate WaitersOk(m: Machine) {
    forall f: nat :: f < |m.futures| && m.futures[f].status.Pending? ==> WaitersOf(m, f)
  }

  predicate WaitersOf(m: Machine, f: nat)
    requires f < |m.futures|
  {
    var rs := ListOf(m, f);
    && (forall k :: 2 <= k < |rs| && rs[k].handler.Wake? ==> ParkedOn(m, rs[k].handler.fiber, f))
    && (forall k, l :: 2 <= k < l < |rs| && rs[k].handler.Wake? ==> rs[k].handler != rs[l].handler)
  }

  predicate DebtOk(m: Machine, debt: Debt) {
    && (debt.fibers != [] ==> debt.future < |m.futures| && !m.futures[debt.future].status.Pending?)
    && (forall k :: 0 <= k < |debt.fibers| ==> ParkedOn(m, debt.fibers[k], debt.future))
    && (forall k, l :: 0 <= k < l < |debt.fibers| ==> debt.fibers[k] != debt.fibers[l])
  }

  /** An answer to a wait is the outcome of a finished future, and that outcome never changed since. */
  predicate FinalAnswer(m: Machine, e: LogEntry) {
    e.Answered? && e.request.Wait? && e.answer.Observed? ==>
      && e.request.future < |m.futures|
      && e.answer.status == m.futures[e.request.future].status
      && !e.answer.status.Pending?
  }

  predicate LogOk(m: Machine) {
    forall k :: 0 <= k < |m.log| ==> FinalAnswer(m, m.log[k])
  }

  ghost predicate Routed(m: Machine, seen: seq<Event>, debt: Debt) {
    && LastKnown(m) && debt.floor <= m.manager.lastEventId.value
    && FuturesOk(m, seen) && HandlersOk(m) && FibersOk(m, debt) && WaitersOk(m) && DebtOk(m, debt) && LogOk(m)
  }

  /** Errors that would mean a completion was delivered wrongly. */
  predicate RoutingFault(e: Error) {
    e == FutureConflict || e == DeadFiber
  }

  ghost predicate RoutedResult(r: Result<Machine>, seen: seq<Event>, debt: Debt) {
    match r
    case Ok(m) => Routed(m, seen, debt)
    case Err(e) => !RoutingFault(e)
  }

  // ----- Single steps -----

  lemma ScheduleAdvances(m: ManagerState, d: Decision)
    requires m.lastEventId.Some?
    ensures
      var o := ScheduleDecision(m, d);
      && o.state.lastEventId.Some? && m.lastEventId.value < o.state.lastEventId.value
      && (o.result.Ok? ==> o.result.value.target == Target(o.state.lastEventId.value, TargetTypeOf(d)))
      && (o.result.Err? ==> !RoutingFault(o.result.error))
  {
  }

  /** A sleeping fiber keeps sleeping when its future and its wake-up are still there. */
  lemma SleepsStill(m: Machine, m': Machine, fiber: nat, debt: Debt)
    requires fiber < |m.fibers| && m.fibers[fiber].Parked? && Sleeps(m, fiber, debt)
    requires fiber < |m'.fibers| && m'.fibers[fiber] == m.fibers[fiber]
    requires m.fibers[fiber].future < |m'.futures|
    requires
      var f := m.fibers[fiber].future;
      m.futures[f].status.Pending? ==>
        m'.futures[f].status.Pending? && m'.futures[f].target == m.futures[f].target && ListOf(m, f) <= ListOf(m', f)
    ensures Sleeps(m', fiber, debt)
  {
    var f := m.fibers[fiber].future;
    if m.futures[f].status.Pending? && exists k :: WaitsAt(m, fiber, f, k) {
      var k :| WaitsAt(m, fiber, f, k);
      assert WaitsAt(m', fiber, f, k);
    }
  }

  /** Futures, their outcomes, their handlers and all fibers are as before. */
  predicate SameRouting(m: Machine, m': Machine) {
    && m'.fibers == m.fibers && |m'.futures| == |m.futures|
    && (forall i :: 0 <= i < |m.futures| ==>
          m'.futures[i].target == m.futures[i].target && m'.futures[i].status == m.futures[i].status)
    && m'.handlers.Keys <= m.handlers.Keys + {WORKFLOW_TARGET}
    && (forall t :: t in m.handlers && t != WORKFLOW_TARGET ==> t in m'.handlers && m'.handlers[t] == m.handlers[t])
    && (WORKFLOW_TARGET in m'.handlers ==>
          forall k :: 0 <= k < |m'.handlers[WORKFLOW_TARGET]| ==> WorkflowHandler(m'.handlers[WORKFLOW_TARGET][k]))
  }

  lemma SameHandlers(m: Machine, m': Machine)
    requires SameRouting(m, m') && HandlersOk(m)
    requires forall i :: 0 <= i < |m.futures| ==> TrackedKind(m.futures[i].target.kind)
    ensures HandlersOk(m')
    ensures forall f: nat :: f < |m.futures| ==> ListOf(m', f) == ListOf(m, f)
  {
    assert forall t, i :: OwnedBy(m, t, i) ==> OwnedBy(m', t, i);
    assert forall i :: 0 <= i < |m.futures| ==> m.futures[i].target != WORKFLOW_TARGET;
  }

  lemma SameFibers(m: Machine, m': Machine, debt: Debt)
    requires m'.fibers == m.fibers && |m'.futures| == |m.futures|
    requires forall i :: 0 <= i < |m.futures| ==>
      m'.futures[i].target == m.futures[i].target && m'.futures[i].status == m.futures[i].status
    requires forall f: nat :: f < |m.futures| ==> ListOf(m', f) == ListOf(m, f)
    requires FibersOk(m, debt) && WaitersOk(m) && DebtOk(m, debt)
    ensures FibersOk(m', debt) && WaitersOk(m') && DebtOk(m', debt)
  {
    forall fiber: nat | fiber < |m'.fibers| && m'.fibers[fiber].Parked?
      ensures Sleeps(m', fiber, debt)
    {
      SleepsStill(m, m', fiber, debt);
    }
    forall f: nat | f < |m'.futures| && m'.futures[f].status.Pending?
      ensures WaitersOf(m', f)
    {
      assert WaitersOf(m, f);
    }
  }

  /** A step that touches neither futures' outcomes nor fibers keeps the routing intact. */
  lemma SameRouted(m: Machine, m': Machine, seen: seq<Event>, debt: Debt)
    requires Routed(m, seen, debt) && SameRouting(m, m')
    requires LastKnown(m') && m.manager.lastEventId.value <= m'.manager.lastEventId.value
    requires m'.log == m.log || (|m'.log| == |m.log| + 1 && m'.log[..|m.log|] == m.log
        && FinalAnswer(m, m'.log[|m.log|]))
    ensures Routed(m', seen, debt)
  {
    SameHandlers(m, m');
    SameFibers(m, m', debt);
    assert LogOk(m') by {
      forall k | 0 <= k < |m'.log|
        ensures FinalAnswer(m', m'.log[k])
      {
        assert k < |m.log| ==> m'.log[k] == m.log[k];
        assert FinalAnswer(m, m'.log[k]);
      }
    }
  }

  lemma ClosingTarget(e: Event)
    requires Closing(e)
    ensures NoticeOf(e).value.target == e.Target()
    ensures NoticeOf(e).value.name == GoodName(e.Target().kind) || (e.Target().kind != Timer
        && NoticeOf(e).value.name == OnFailed)
  {
  }

  /** The machine after a tracked command was scheduled. */
  function WithFuture(m: Machine, manager: ManagerState, t: Target, id: Option<Ident>): Machine {
    var n := |m.futures|;
    var h := Register(m.handlers, t, Registration(GoodName(t.kind), Settle(n)));
    m.(manager := manager,
       handlers := Register(h, t, Registration(BadName(t.kind), Break(n))),
       futures := m.futures + [Future(t, id, [], Pending)])
  }

  ghost predicate FreshTarget(m: Machine, manager: ManagerState, t: Target) {
    && LastKnown(m) && manager.lastEventId == Some(t.id) && m.manager.lastEventId.value < t.id && TrackedKind(t.kind)
  }

  lemma FreshFutureFutures(m: Machine, manager: ManagerState, t: Target, id: Option<Ident>, seen: seq<Event>)
    requires FreshTarget(m, manager, t) && FuturesOk(m, seen)
    ensures FuturesOk(WithFuture(m, manager, t, id), seen)
  {
    assert Verdict(seen, t).Pending?;
  }

  lemma FreshTargetUnused(m: Machine, manager: ManagerState, t: Target, seen: seq<Event>)
    requires FreshTarget(m, manager, t) && FuturesOk(m, seen) && KeysOwned(m)
    ensures t !in m.handlers
  {
    assert forall i :: !OwnedBy(m, t, i);
  }

  lemma FreshFutureKeys(m: Machine, manager: ManagerState, t: Target, id: Option<Ident>)
    requires KeysOwned(m)
    ensures KeysOwned(WithFuture(m, manager, t, id))
  {
    var m' := WithFuture(m, manager, t, id);
    assert forall u, i :: OwnedBy(m, u, i) ==> OwnedBy(m', u, i);
    assert OwnedBy(m', t, |m.futures|);
  }

  lemma FreshFutureLists(m: Machine, manager: ManagerState, t: Target, id: Option<Ident>)
    requires t !in m.handlers && t != WORKFLOW_TARGET && ListsOk(m) && WorkflowListOk(m)
    ensures ListsOk(WithFuture(m, manager, t, id)) && WorkflowListOk(WithFuture(m, manager, t, id))
  {
    hide ListFor;
    var m' := WithFuture(m, manager, t, id);
    forall i | 0 <= i < |m'.futures|
      ensures m'.futures[i].target in m'.handlers
      ensures ListFor(m'.handlers[m'.futures[i].target], i, m'.futures[i].target.kind)
    {
      if i == |m.futures| {
        FreshList(t.kind, i);
        assert m'.handlers[t] == [Registration(GoodName(t.kind), Settle(i)), Registration(BadName(t.kind), Break(i))];
      }
    }
  }

  lemma FreshList(k: TargetType, i: nat)
    ensures ListFor([Registration(GoodName(k), Settle(i)), Registration(BadName(k), Break(i))], i, k)
  {
  }

  lemma FreshFutureFibers(m: Machine, manager: ManagerState, t: Target, id: Option<Ident>, debt: Debt)
    requires t !in m.handlers && ListsOk(m) && FibersOk(m, debt) && WaitersOk(m) && DebtOk(m, debt) && LogOk(m)
    ensures
      var m' := WithFuture(m, manager, t, id);
      FibersOk(m', debt) && WaitersOk(m') && DebtOk(m', debt) && LogOk(m')
  {
    var m' := WithFuture(m, manager, t, id);
    assert forall i :: 0 <= i < |m.futures| ==> m'.futures[i] == m.futures[i];
    assert forall u :: u in m.handlers ==> m'.handlers[u] == m.handlers[u];
    assert forall f: nat :: f < |m.futures| ==> ListOf(m', f) == ListOf(m, f);
    hide ListFor, ListsOk, Register;
    forall fiber: nat | fiber < |m'.fibers| && m'.fibers[fiber].Parked?
      ensures Sleeps(m', fiber, debt)
    {
      SleepsStill(m, m', fiber, debt);
    }
    forall f: nat | f < |m'.futures| && m'.futures[f].status.Pending?
      ensures WaitersOf(m', f)
    {
      if f < |m.futures| {
        assert WaitersOf(m, f);
      } else {
        assert |ListOf(m', f)| == 2;
      }
    }
    assert forall e :: FinalAnswer(m, e) ==> FinalAnswer(m', e);
  }

  lemma FreshFutureRouted(m: Machine, manager: ManagerState, t: Target, id: Option<Ident>, seen: seq<Event>, debt: Debt)
    requires Routed(m, seen, debt) && FreshTarget(m, manager, t)
    ensures Routed(WithFuture(m, manager, t, id), seen, debt)
  {
    hide FuturesOk, KeysOwned, ListsOk, WorkflowListOk, FibersOk, WaitersOk, DebtOk, LogOk;
    FreshFutureFutures(m, manager, t, id, seen);
    FreshTargetUnused(m, manager, t, seen);
    FreshFutureKeys(m, manager, t, id);
    FreshFutureLists(m, manager, t, id);
    FreshFutureFibers(m, manager, t, id, debt);
  }

  /** Nothing but the state manager changed, and its id counter did not go back. */
  lemma ManagerOnly(m: Machine, manager: ManagerState, seen: seq<Event>, debt: Debt)
    requires Routed(m, seen, debt)
    requires manager.lastEventId.Some? && m.manager.lastEventId.value <= manager.lastEventId.value
    ensures Routed(m.(manager := manager), seen, debt)
  {
    SameRouted(m, m.(manager := manager), seen, debt);
  }

  lemma ListenRouted(m: Machine, seen: seq<Event>, debt: Debt)
    requires Routed(m, seen, debt)
    ensures Routed(Listen(m).machine, seen, debt)
  {
    SameRouted(m, Listen(m).machine, seen, debt);
  }

  lemma CallbackRouted(m: Machine, f: nat, seen: seq<Event>, debt: Debt)
    requires Routed(m, seen, debt) && f < |m.futures|
    ensures Routed(AddCallback(m, f).machine, seen, debt)
  {
    SameRouted(m, AddCallback(m, f).machine, seen, debt);
  }

  lemma LoggedRouted(m: Machine, e: LogEntry, seen: seq<Event>, debt: Debt)
    requires Routed(m, seen, debt) && FinalAnswer(m, e)
    ensures Routed(Logged(m, e), seen, debt)
  {
    assert (m.log + [e])[..|m.log|] == m.log;
    SameRouted(m, Logged(m, e), seen, debt);
  }

  lemma ParkRouted(m: Machine, fiber: nat, root: bool, f: nat, seen: seq<Event>, debt: Debt)
    requires Routed(m, seen, debt) && f < |m.futures| && m.futures[f].status.Pending?
    requires fiber < |m.fibers| && m.fibers[fiber].NotParked?
    ensures Routed(Park(m, fiber, root, f), seen, debt)
  {
    hide HandlersOk, FibersOk, WaitersOk, DebtOk, LogOk, FuturesOk, Park, Parks;
    var m' := Park(m, fiber, root, f);
    ParkLists(m, fiber, root, f, seen);
    ParkHandlers(m, fiber, root, f, seen);
    ParkFibers(m, m', fiber, f, debt);
    ParkWaiters(m, m', fiber, f);
    ParkRest(m, m', fiber, f, debt);
    ParkFutures(m, fiber, root, f, seen);
  }

  /** What parking changes, as far as the routing is concerned. */
  predicate Parks(m: Machine, m': Machine, fiber: nat, f: nat) {
    && fiber < |m.fibers| && m.fibers[fiber].NotParked? && f < |m.futures| && m.futures[f].status.Pending?
    && m'.futures == m.futures && m'.log == m.log && |m'.fibers| == |m.fibers|
    && m'.fibers[fiber].Parked? && m'.fibers[fiber].future == f
    && (forall x :: 0 <= x < |m.fibers| && x != fiber ==> m'.fibers[x] == m.fibers[x])
    && |ListOf(m, f)| >= 2
    && ListOf(m', f) == ListOf(m, f) + [Registration(Any, Wake(f, fiber))]
    && (forall g: nat :: g < |m.futures| && g != f ==> ListOf(m', g) == ListOf(m, g))
  }

  lemma ParkFibers(m: Machine, m': Machine, fiber: nat, f: nat, debt: Debt)
    requires Parks(m, m', fiber, f) && FibersOk(m, debt)
    ensures FibersOk(m', debt)
  {
    forall x: nat | x < |m'.fibers| && m'.fibers[x].Parked?
      ensures Sleeps(m', x, debt)
    {
      if x == fiber {
        assert WaitsAt(m', x, f, |ListOf(m, f)|);
      } else {
        SleepsStill(m, m', x, debt);
      }
    }
  }

  lemma ParkWaiters(m: Machine, m': Machine, fiber: nat, f: nat)
    requires Parks(m, m', fiber, f) && WaitersOk(m)
    ensures WaitersOk(m')
  {
    forall g: nat | g < |m'.futures| && m'.futures[g].status.Pending?
      ensures WaitersOf(m', g)
    {
      assert WaitersOf(m, g);
      if g != f {
        assert ListOf(m', g) == ListOf(m, g);
      }
    }
  }

  lemma ParkFutures(m: Machine, fiber: nat, root: bool, f: nat, seen: seq<Event>)
    requires LastKnown(m) && FuturesOk(m, seen) && f < |m.futures|
    ensures Park(m, fiber, root, f).manager == m.manager && FuturesOk(Park(m, fiber, root, f), seen)
  {
    hide Verdict;
  }

  lemma ParkRest(m: Machine, m': Machine, fiber: nat, f: nat, debt: Debt)
    requires Parks(m, m', fiber, f) && DebtOk(m, debt) && LogOk(m)
    ensures DebtOk(m', debt) && LogOk(m')
  {
    assert forall e :: FinalAnswer(m, e) ==> FinalAnswer(m', e);
  }

  lemma ParkLists(m: Machine, fiber: nat, root: bool, f: nat, seen: seq<Event>)
    requires LastKnown(m) && FuturesOk(m, seen) && HandlersOk(m) && f < |m.futures| && m.futures[f].status.Pending?
    requires fiber < |m.fibers| && m.fibers[fiber].NotParked?
    ensures Parks(m, Park(m, fiber, root, f), fiber, f)
  {
    assert ListFor(m.handlers[m.futures[f].target], f, m.futures[f].target.kind);
  }

  lemma ParkHandlers(m: Machine, fiber: nat, root: bool, f: nat, seen: seq<Event>)
    requires LastKnown(m) && FuturesOk(m, seen) && HandlersOk(m) && f < |m.futures|
    ensures HandlersOk(Park(m, fiber, root, f))
  {
    var m' := Park(m, fiber, root, f);
    var t := m.futures[f].target;
    assert t != WORKFLOW_TARGET && m'.handlers.Keys == m.handlers.Keys;
    assert forall u, i :: OwnedBy(m, u, i) ==> OwnedBy(m', u, i);
    assert ListsOk(m') by {
      ListGrows(m.handlers[t], f, t.kind, fiber);
      hide ListFor, KeysOwned, WorkflowListOk;
    }
  }

  lemma ListGrows(rs: seq<Registration>, f: nat, k: TargetType, fiber: nat)
    requires ListFor(rs, f, k)
    ensures ListFor(rs + [Registration(Any, Wake(f, fiber))], f, k)
  {
  }

  lemma StartTrackedRouted(m: Machine, r: Request, seen: seq<Event>, debt: Debt)
    requires Routed(m, seen, debt) && StartsTracked(r)
    ensures
      var t := TrackedFor(r);
      var reply := StartTracked(m, t.decision, t.settled, t.broken);
      Routed(reply.machine, seen, debt) && reply.machine.fibers == m.fibers
  {
    var t := TrackedFor(r);
    var scheduled := ScheduleDecision(m.manager, t.decision);
    ScheduleAdvances(m.manager, t.decision);
    if scheduled.result.Ok? {
      var issued := scheduled.result.value;
      FreshFutureRouted(m, scheduled.state, issued.target, issued.cancelationId, seen, debt);
      assert StartTracked(m, t.decision, t.settled, t.broken).machine
          == WithFuture(m, scheduled.state, issued.target, issued.cancelationId);
    } else {
      ManagerOnly(m, scheduled.state, seen, debt);
    }
  }

  lemma StartPlainRouted(m: Machine, d: Decision, seen: seq<Event>, debt: Debt)
    requires Routed(m, seen, debt) && !d.RecordMarker?
    ensures Routed(StartPlain(m, d).machine, seen, debt) && StartPlain(m, d).machine.fibers == m.fibers
  {
    ScheduleAdvances(m.manager, d);
    ManagerOnly(m, ScheduleDecision(m.manager, d).state, seen, debt);
  }

  lemma SideEffectAdvances(m: ManagerState, v: Value)
    requires m.lastEventId.Some?
    ensures PerformSideEffect(m, v).state.lastEventId.Some?
    ensures m.lastEventId.value <= PerformSideEffect(m, v).state.lastEventId.value
  {
  }

  lemma ReleaseAdvances(m: ManagerState, name: string)
    requires m.lastEventId.Some?
    ensures CheckRelease(m, name).state.lastEventId.Some?
    ensures m.lastEventId.value <= CheckRelease(m, name).state.lastEventId.value
  {
  }

  lemma AskFutureRouted(m: Machine, r: Request, seen: seq<Event>, debt: Debt)
    requires Routed(m, seen, debt) && (r.Wait? || r.Inspect? || r.OnDone? || r.CancelFuture?)
    ensures Routed(AskFuture(m, r).machine, seen, debt) && AskFuture(m, r).machine.fibers == m.fibers
  {
    hide Routed;
    if r.future < |m.futures| {
      if r.OnDone? {
        CallbackRouted(m, r.future, seen, debt);
      } else if r.CancelFuture? {
        var f := m.futures[r.future];
        StartPlainRouted(m, RequestActivityCancellation(f.cancelationId), seen, debt);
        StartPlainRouted(m, CancelTimer(f.cancelationId), seen, debt);
      }
    }
  }

  lemma PerformRouted(env: Env, m: Machine, r: Request, seen: seq<Event>, debt: Debt)
    requires Routed(m, seen, debt)
    ensures Routed(Perform(env, m, r).machine, seen, debt) && Perform(env, m, r).machine.fibers == m.fibers
  {
    hide StartTracked, StartPlain, AskFuture, Listen, PerformSideEffect, CheckRelease, Keeps, FuturesOk, HandlersOk,
         FibersOk, WaitersOk, DebtOk, LogOk;
    if StartsTracked(r) {
      StartTrackedRouted(m, r, seen, debt);
    } else if StartsPlain(r) {
      StartPlainRouted(m, PlainFor(r), seen, debt);
    } else if r.DrawSideEffect? {
      var v := env.oracle(m.manager.lastEventId);
      SideEffectAdvances(m.manager, v);
      ManagerOnly(m, PerformSideEffect(m.manager, v).state, seen, debt);
    } else if r.HasRelease? {
      ReleaseAdvances(m.manager, r.name);
      ManagerOnly(m, CheckRelease(m.manager, r.name).state, seen, debt);
    } else if r.OnSignal? {
      ListenRouted(m, seen, debt);
      ListenFibers(m);
    } else if r.Wait? || r.Inspect? || r.OnDone? || r.CancelFuture? {
      AskFutureRouted(m, r, seen, debt);
    }
  }

  lemma ListenFibers(m: Machine)
    ensures Listen(m).machine.fibers == m.fibers
  {
  }

  /** A wait that is answered at once is answered with a final outcome. */
  lemma ImmediateAnswer(env: Env, m: Machine, fiber: nat, r: Request)
    requires !MustPark(m, r)
    ensures FinalAnswer(Perform(env, m, r).machine, Answered(fiber, r, Perform(env, m, r).answer))
  {
  }

  lemma FinishRouted(m: Machine, root: bool, r: Request, seen: seq<Event>, debt: Debt)
    requires Routed(m, seen, debt) && (r.Return? || r.Raise?)
    ensures RoutedResult(Finish(m, root, r), seen, debt)
  {
    if root && r.Return? {
      var completed := ScheduleDecision(m.manager, CompleteWorkflow(r.result));
      ScheduleAdvances(m.manager, CompleteWorkflow(r.result));
      ManagerOnly(m, completed.state, seen, debt);
      FailRootRouted(m.(manager := completed.state), "Error", Null, seen, debt);
    } else if root {
      FailRootRouted(m, r.reason, r.details, seen, debt);
    }
  }

  lemma FailRootRouted(m: Machine, reason: string, details: Value, seen: seq<Event>, debt: Debt)
    requires Routed(m, seen, debt)
    ensures RoutedResult(FailRoot(m, reason, details), seen, debt)
  {
    ScheduleAdvances(m.manager, FailWorkflow(reason, details));
    ManagerOnly(m, ScheduleDecision(m.manager, FailWorkflow(reason, details)).state, seen, debt);
  }

  lemma {:induction false} RunRouted(env: Env, m: Machine, fiber: nat, root: bool, steps: nat, seen: seq<Event>,
          debt: Debt)
    requires Routed(m, seen, debt) && fiber < |m.fibers| && m.fibers[fiber].NotParked?
    ensures RoutedResult(Run(env, m, fiber, root, steps), seen, debt)
    decreases steps
  {
    hide Perform, Park, Finish, Routed;
    if steps > 0 {
      var r := env.code(fiber, m.log);
      if r.Return? || r.Raise? {
        FinishRouted(m, root, r, seen, debt);
      } else if MustPark(m, r) {
        ParkRouted(m, fiber, root, r.future, seen, debt);
      } else {
        var reply := Perform(env, m, r);
        var e := Answered(fiber, r, reply.answer);
        PerformRouted(env, m, r, seen, debt);
        ImmediateAnswer(env, m, fiber, r);
        LoggedRouted(reply.machine, e, seen, debt);
        RunRouted(env, Logged(reply.machine, e), fiber, root, steps - 1, seen, debt);
      }
    }
  }

  // ----- Starting and resuming fibers -----

  lemma NewFiberRouted(m: Machine, seen: seq<Event>, debt: Debt)
    requires Routed(m, seen, debt)
    ensures Routed(m.(fibers := m.fibers + [NotParked]), seen, debt)
  {
    hide FibersOk, WaitersOk, DebtOk, LogOk, Verdict;
    var m' := m.(fibers := m.fibers + [NotParked]);
    assert forall t, i :: OwnedBy(m, t, i) ==> OwnedBy(m', t, i);
    NewFiberSleepers(m, debt);
    NewFiberWaiters(m);
    NewFiberRest(m, debt);
  }

  lemma NewFiberSleepers(m: Machine, debt: Debt)
    requires FibersOk(m, debt)
    ensures FibersOk(m.(fibers := m.fibers + [NotParked]), debt)
  {
    var m' := m.(fibers := m.fibers + [NotParked]);
    forall fiber: nat | fiber < |m'.fibers| && m'.fibers[fiber].Parked?
      ensures Sleeps(m', fiber, debt)
    {
      SleepsStill(m, m', fiber, debt);
    }
  }

  lemma NewFiberWaiters(m: Machine)
    requires WaitersOk(m)
    ensures WaitersOk(m.(fibers := m.fibers + [NotParked]))
  {
    forall f: nat | f < |m.futures| && m.futures[f].status.Pending?
      ensures WaitersOf(m.(fibers := m.fibers + [NotParked]), f)
    {
      assert WaitersOf(m, f);
    }
  }

  lemma NewFiberRest(m: Machine, debt: Debt)
    requires DebtOk(m, debt) && LogOk(m)
    ensures DebtOk(m.(fibers := m.fibers + [NotParked]), debt) && LogOk(m.(fibers := m.fibers + [NotParked]))
  {
    assert forall e :: FinalAnswer(m, e) ==> FinalAnswer(m.(fibers := m.fibers + [NotParked]), e);
  }

  lemma LaunchRouted(env: Env, m: Machine, root: bool, e: LogEntry, seen: seq<Event>, debt: Debt)
    requires Routed(m, seen, debt) && !e.Answered?
    ensures RoutedResult(Launch(env, m, root, e), seen, debt)
  {
    var m1 := m.(fibers := m.fibers + [NotParked]);
    NewFiberRouted(m, seen, debt);
    LoggedRouted(m1, e, seen, debt);
    RunRouted(env, Logged(m1, e), |m.fibers|, root, env.budget, seen, debt);
  }

  lemma {:induction false} RunCallbacksRouted(env: Env, m: Machine, blocks: seq<nat>, v: Value, seen: seq<Event>,
          debt: Debt)
    requires Routed(m, seen, debt)
    ensures RoutedResult(RunCallbacks(env, m, blocks, v), seen, debt)
    decreases |blocks|
  {
    if blocks != [] {
      RunCallbacksRouted(env, m, blocks[..|blocks| - 1], v, seen, debt);
      var before := RunCallbacks(env, m, blocks[..|blocks| - 1], v);
      if before.Ok? {
        var e := Spawned(|before.value.fibers|, blocks[|blocks| - 1], Payload("", v));
        LaunchRouted(env, before.value, false, e, seen, debt);
      }
    }
  }

  /** Handlers of the workflow itself only ever start fibers. */
  lemma {:induction false} StartersRouted(env: Env, m: Machine, hs: seq<Handler>, p: Payload, seen: seq<Event>,
          debt: Debt)
    requires Routed(m, seen, debt)
    requires forall i :: 0 <= i < |hs| ==> hs[i].Begin? || hs[i].SignalBlock?
    ensures RoutedResult(CallAll(env, m, hs, p), seen, debt)
    decreases |hs|
  {
    if hs != [] {
      var last := hs[|hs| - 1];
      StartersRouted(env, m, hs[..|hs| - 1], p, seen, debt);
      var before := CallAll(env, m, hs[..|hs| - 1], p);
      if before.Ok? {
        var n := |before.value.fibers|;
        if last.Begin? {
          LaunchRouted(env, before.value, true, Began(n, p.value), seen, debt);
        } else {
          LaunchRouted(env, before.value, false, Spawned(n, last.block, p), seen, debt);
        }
      }
    }
  }

  /** Resuming the next fiber that is owed a wake-up. */
  lemma WakeRouted(env: Env, m: Machine, fiber: nat, seen: seq<Event>, debt: Debt)
    requires Routed(m, seen, debt) && debt.fibers != [] && debt.fibers[0] == fiber
    ensures debt.future < |m.futures|
    ensures RoutedResult(WakeFiber(env, m, debt.future, fiber), seen, debt.(fibers := debt.fibers[1..]))
  {
    var f := debt.future;
    var rest := debt.(fibers := debt.fibers[1..]);
    assert ParkedOn(m, fiber, f);
    var resumed := m.(fibers := m.fibers[fiber := NotParked]);
    ResumedRouted(m, fiber, seen, debt);
    hide FuturesOk, HandlersOk, FibersOk, WaitersOk, LogOk, Run;
    var e := Answered(fiber, Wait(f), Observed(m.futures[f].status));
    LoggedRouted(resumed, e, seen, rest);
    RunRouted(env, Logged(resumed, e), fiber, m.fibers[fiber].root, env.budget, seen, rest);
  }

  lemma ResumedRouted(m: Machine, fiber: nat, seen: seq<Event>, debt: Debt)
    requires Routed(m, seen, debt) && debt.fibers != [] && debt.fibers[0] == fiber
    ensures fiber < |m.fibers|
    ensures Routed(m.(fibers := m.fibers[fiber := NotParked]), seen, debt.(fibers := debt.fibers[1..]))
  {
    assert ParkedOn(m, debt.fibers[0], debt.future);
    var m' := m.(fibers := m.fibers[fiber := NotParked]);
    assert forall t, i :: OwnedBy(m, t, i) ==> OwnedBy(m', t, i);
    ResumedFibers(m, m', debt);
    ResumedRest(m, m', debt);
    hide FibersOk, WaitersOk, DebtOk, LogOk, FinalAnswer;
  }

  ghost predicate Resumes(m: Machine, m': Machine, debt: Debt) {
    && debt.fibers != [] && DebtOk(m, debt)
    && debt.fibers[0] < |m.fibers|
    && m' == m.(fibers := m.fibers[debt.fibers[0] := NotParked])
  }

  lemma ResumedFibers(m: Machine, m': Machine, debt: Debt)
    requires Resumes(m, m', debt) && FibersOk(m, debt)
    ensures FibersOk(m', debt.(fibers := debt.fibers[1..]))
  {
    var rest := debt.(fibers := debt.fibers[1..]);
    forall x: nat | x < |m'.fibers| && m'.fibers[x].Parked?
      ensures Sleeps(m', x, rest)
    {
      SleepsStill(m, m', x, debt);
      if x in debt.fibers {
        assert x in rest.fibers;
      }
    }
  }

  lemma ResumedRest(m: Machine, m': Machine, debt: Debt)
    requires Resumes(m, m', debt) && WaitersOk(m) && LogOk(m)
    ensures WaitersOk(m') && DebtOk(m', debt.(fibers := debt.fibers[1..])) && LogOk(m')
  {
    var rest := debt.(fibers := debt.fibers[1..]);
    assert ParkedOn(m, debt.fibers[0], debt.future);
    forall f: nat | f < |m'.futures| && m'.futures[f].status.Pending?
      ensures WaitersOf(m', f)
    {
      assert WaitersOf(m, f);
    }
    forall k | 0 <= k < |rest.fibers|
      ensures ParkedOn(m', rest.fibers[k], rest.future)
    {
      assert ParkedOn(m, debt.fibers[k + 1], debt.future) && debt.fibers[0] != debt.fibers[k + 1];
    }
    assert forall e :: FinalAnswer(m, e) ==> FinalAnswer(m', e);
  }

  // ----- Delivering an outcome -----

  function WakesIn(rs: seq<Registration>): (hs: seq<Handler>)
    requires |rs| >= 2
    ensures |hs| == |rs| - 2
  {
    seq(|rs| - 2, i requires 0 <= i < |rs| - 2 => rs[i + 2].handler)
  }

  function FibersIn(hs: seq<Handler>): (fs: seq<nat>)
    requires forall i :: 0 <= i < |hs| ==> hs[i].Wake?
    ensures |fs| == |hs|
  {
    seq(|hs|, i requires 0 <= i < |hs| => hs[i].fiber)
  }

  /** The snapshot for an outcome: the future's own handler first, then every waiter in order. */
  lemma {:induction false} SelectList(rs: seq<Registration>, f: nat, k: TargetType, name: Name)
    requires ListFor(rs, f, k) && (name == GoodName(k) || name == BadName(k))
    ensures Select(rs, name) == [if name == GoodName(k) then Settle(f) else Break(f)] + WakesIn(rs)
    decreases |rs|
  {
    if |rs| == 2 {
      assert Select(rs[..1], name) == if name == GoodName(k) then [Settle(f)] else [] by {
        assert rs[..1][..0] == [];
      }
      assert rs[..2][..1] == rs[..1];
    } else {
      SelectList(rs[..|rs| - 1], f, k, name);
      assert WakeFor(rs[|rs| - 1], f);
      assert WakesIn(rs) == WakesIn(rs[..|rs| - 1]) + [rs[|rs| - 1].handler];
    }
  }

  ghost predicate Delivers(m: Machine, f: nat, e: Event, seen: seq<Event>) {
    && f < |m.futures| && m.futures[f].status.Pending? && Closes(e, m.futures[f].target)
    && LastKnown(m) && FuturesOk(m, seen) && HandlersOk(m)
  }

  lemma OutcomeFutures(m: Machine, f: nat, e: Event, seen: seq<Event>)
    requires Delivers(m, f, e, seen)
    ensures FuturesOk(WithStatus(m, f, Reported(e)), seen + [e])
  {
    var m' := WithStatus(m, f, Reported(e));
    ClosingTarget(e);
    forall i | 0 <= i < |m'.futures|
      ensures m'.futures[i].status == Verdict(seen + [e], m'.futures[i].target)
    {
      VerdictSnoc(seen, e, m.futures[i].target);
    }
    forall t
      ensures !Verdict(seen + [e], t).Pending? ==> t.id <= m.manager.lastEventId.value
    {
      VerdictSnoc(seen, e, t);
    }
  }

  lemma OutcomeHandlers(m: Machine, f: nat, e: Event, seen: seq<Event>)
    requires Delivers(m, f, e, seen)
    ensures HandlersOk(WithStatus(m, f, Reported(e)))
  {
    var m' := WithStatus(m, f, Reported(e));
    assert forall t, i :: OwnedBy(m, t, i) ==> OwnedBy(m', t, i);
  }

  /** All fibers waiting for the future are now owed a wake-up. */
  function Owed(m: Machine, f: nat, floor: int): Debt
    requires f < |m.futures| && ListFor(ListOf(m, f), f, m.futures[f].target.kind)
  {
    assert forall i :: 2 <= i < |ListOf(m, f)| ==> WakeFor(ListOf(m, f)[i], f);
    Debt(floor, f, FibersIn(WakesIn(ListOf(m, f))))
  }

  lemma OutcomeFibers(m: Machine, f: nat, status: Status, floor: int)
    requires f < |m.futures| && m.futures[f].status.Pending? && !status.Pending?
    requires ListFor(ListOf(m, f), f, m.futures[f].target.kind) && FibersOk(m, NoDebt(floor))
    ensures FibersOk(WithStatus(m, f, status), Owed(m, f, floor))
  {
    var m', debt := WithStatus(m, f, status), Owed(m, f, floor);
    forall x: nat | x < |m'.fibers| && m'.fibers[x].Parked?
      ensures Sleeps(m', x, debt)
    {
      assert Sleeps(m, x, NoDebt(floor));
      SleeperOwed(m, f, status, floor, x);
    }
  }

  /** Whoever waits for the finished future is about to be resumed; everyone else sleeps on. */
  lemma SleeperOwed(m: Machine, f: nat, status: Status, floor: int, x: nat)
    requires f < |m.futures| && m.futures[f].status.Pending? && !status.Pending?
    requires ListFor(ListOf(m, f), f, m.futures[f].target.kind)
    requires x < |m.fibers| && m.fibers[x].Parked? && Sleeps(m, x, NoDebt(floor))
    ensures Sleeps(WithStatus(m, f, status), x, Owed(m, f, floor))
  {
    var m', debt, g := WithStatus(m, f, status), Owed(m, f, floor), m.fibers[x].future;
    var k :| WaitsAt(m, x, g, k);
    if g == f {
      assert debt.fibers[k - 2] == x;
    } else {
      assert WaitsAt(m', x, g, k);
    }
  }

  lemma OutcomeWaiters(m: Machine, f: nat, status: Status)
    requires f < |m.futures| && !status.Pending? && WaitersOk(m)
    ensures WaitersOk(WithStatus(m, f, status))
  {
    var m' := WithStatus(m, f, status);
    forall g: nat | g < |m'.futures| && m'.futures[g].status.Pending?
      ensures WaitersOf(m', g)
    {
      assert WaitersOf(m, g);
    }
  }

  lemma OutcomeDebt(m: Machine, f: nat, status: Status, floor: int)
    requires f < |m.futures| && m.futures[f].status.Pending? && !status.Pending? && WaitersOk(m)
    requires ListFor(ListOf(m, f), f, m.futures[f].target.kind)
    ensures DebtOk(WithStatus(m, f, status), Owed(m, f, floor))
  {
    var m', debt, rs := WithStatus(m, f, status), Owed(m, f, floor), ListOf(m, f);
    assert WaitersOf(m, f);
    forall k | 0 <= k < |debt.fibers|
      ensures ParkedOn(m', debt.fibers[k], f)
      ensures rs[k + 2].handler == Wake(f, debt.fibers[k])
    {
      assert WakeFor(rs[k + 2], f);
    }
  }

  lemma OutcomeLog(m: Machine, f: nat, status: Status)
    requires f < |m.futures| && m.futures[f].status.Pending? && LogOk(m)
    ensures LogOk(WithStatus(m, f, status))
  {
    assert forall x :: FinalAnswer(m, x) ==> FinalAnswer(WithStatus(m, f, status), x);
  }

  lemma OutcomeRouted(m: Machine, f: nat, e: Event, seen: seq<Event>, floor: int)
    requires Routed(m, seen, NoDebt(floor)) && Delivers(m, f, e, seen)
    ensures Routed(WithStatus(m, f, Reported(e)), seen + [e], Owed(m, f, floor))
  {
    OutcomeFutures(m, f, e, seen);
    OutcomeHandlers(m, f, e, seen);
    OutcomeFibers(m, f, Reported(e), floor);
    OutcomeWaiters(m, f, Reported(e));
    OutcomeDebt(m, f, Reported(e), floor);
    OutcomeLog(m, f, Reported(e));
    hide FuturesOk, HandlersOk, FibersOk, WaitersOk, DebtOk, LogOk;
  }

  /** The waiters are resumed one by one; `own` is the future's own handler, already called. */
  lemma {:induction false} WakesRouted(env: Env, m: Machine, own: Handler, wakes: seq<Handler>, p: Payload, m1: Machine,
                                       seen: seq<Event>, debt: Debt, n: nat)
    requires CallAll(env, m, [own], p) == Ok(m1) && Routed(m1, seen, debt)
    requires n <= |wakes| == |debt.fibers|
    requires forall i :: 0 <= i < |wakes| ==> wakes[i] == Wake(debt.future, debt.fibers[i])
    ensures RoutedResult(CallAll(env, m, [own] + wakes[..n], p), seen, debt.(fibers := debt.fibers[n..]))
    decreases n
  {
    hide Routed, WakeFiber;
    if n == 0 {
      assert [own] + wakes[..0] == [own] && debt.fibers[0..] == debt.fibers;
    } else {
      WakesRouted(env, m, own, wakes, p, m1, seen, debt, n - 1);
      var hs := [own] + wakes[..n];
      assert hs[..|hs| - 1] == [own] + wakes[..n - 1] && hs[|hs| - 1] == Wake(debt.future, debt.fibers[n - 1]);
      var before := CallAll(env, m, hs[..|hs| - 1], p);
      if before.Ok? {
        var left := debt.(fibers := debt.fibers[n - 1..]);
        assert left.fibers[1..] == debt.fibers[n..];
        WakeRouted(env, before.value, debt.fibers[n - 1], seen, left);
      }
    }
  }

  /** The future's own handler: it never raises, and leaves every waiter owed. */
  lemma OwnHandlerRouted(env: Env, m: Machine, f: nat, e: Event, seen: seq<Event>, floor: int)
    requires Routed(m, seen, NoDebt(floor)) && Delivers(m, f, e, seen)
    ensures
      var n := NoticeOf(e).value;
      var own := if n.name == GoodName(e.Target().kind) then Settle(f) else Break(f);
      RoutedResult(CallAll(env, m, [own], n.payload), seen + [e], Owed(m, f, floor))
  {
    var n := NoticeOf(e).value;
    var own := if n.name == GoodName(e.Target().kind) then Settle(f) else Break(f);
    OwnCall(env, m, f, e, seen);
    OneCall(env, m, own, n.payload);
    OutcomeRouted(m, f, e, seen, floor);
    hide Routed, Delivers, Owed, RunCallbacks, FuturesOk, HandlersOk, Verdict, TargetTypeOfKind, AllAnswerable, Call,
         CallAll, NoticeOf, GoodName;
    if own.Settle? {
      RunCallbacksRouted(env, WithStatus(m, f, Reported(e)), m.futures[f].callbacks, n.payload.value, seen + [e],
          Owed(m, f, floor));
    }
  }

  /** The future's own handler stores the outcome; a good one also runs the callbacks. */
  lemma OwnCall(env: Env, m: Machine, f: nat, e: Event, seen: seq<Event>)
    requires Delivers(m, f, e, seen)
    ensures
      var n := NoticeOf(e).value;
      var own := if n.name == GoodName(e.Target().kind) then Settle(f) else Break(f);
      var done := WithStatus(m, f, Reported(e));
      Call(env, m, own, n.payload)
      == if own.Settle? then RunCallbacks(env, done, m.futures[f].callbacks, n.payload.value) else Ok(done)
  {
    ClosingTarget(e);
    hide RunCallbacks, Verdict;
  }

  lemma OneCall(env: Env, m: Machine, h: Handler, p: Payload)
    ensures CallAll(env, m, [h], p) == Call(env, m, h, p)
  {
    hide Call;
    assert [h][..0] == [];
  }

  /** The future's own handler for an event. */
  function OwnHandler(f: nat, e: Event): Handler
    requires NoticeOf(e).Some?
  {
    if NoticeOf(e).value.name == GoodName(e.Target().kind) then Settle(f) else Break(f)
  }

  /** The state of a delivery: the future's own handler and the first `k` waiters have been called. */
  function Delivered(env: Env, m: Machine, f: nat, e: Event, k: nat): Result<Machine>
    requires f < |m.futures| && NoticeOf(e).Some? && ListFor(ListOf(m, f), f, m.futures[f].target.kind)
    requires k <= |WakesIn(ListOf(m, f))|
  {
    CallAll(env, m, [OwnHandler(f, e)] + WakesIn(ListOf(m, f))[..k], NoticeOf(e).value.payload)
  }

  lemma DeliveryPhases(env: Env, m: Machine, f: nat, e: Event, seen: seq<Event>, floor: int)
    requires Routed(m, seen, NoDebt(floor)) && Delivers(m, f, e, seen)
    ensures NoticeOf(e).Some? && ListFor(ListOf(m, f), f, m.futures[f].target.kind)
    ensures Announce(env, m, NoticeOf(e).value) == Delivered(env, m, f, e, |WakesIn(ListOf(m, f))|)
    ensures e.Target() == m.futures[f].target
  {
    var n := NoticeOf(e).value;
    ClosingTarget(e);
    SelectList(ListOf(m, f), f, m.futures[f].target.kind, n.name);
    var wakes := WakesIn(ListOf(m, f));
    assert wakes[..|wakes|] == wakes;
  }

  /** Every stage of a delivery keeps the routing: the waiters not yet called are still owed their wake-up. */
  lemma StageRouted(env: Env, m: Machine, f: nat, e: Event, seen: seq<Event>, floor: int, k: nat)
    requires Routed(m, seen, NoDebt(floor)) && Delivers(m, f, e, seen)
    requires k <= |Owed(m, f, floor).fibers|
    ensures NoticeOf(e).Some? && k <= |WakesIn(ListOf(m, f))|
    ensures
      var debt := Owed(m, f, floor);
      RoutedResult(Delivered(env, m, f, e, k), seen + [e], debt.(fibers := debt.fibers[k..]))
  {
    hide Routed;
    var n, debt, wakes := NoticeOf(e).value, Owed(m, f, floor), WakesIn(ListOf(m, f));
    OwnHandlerRouted(env, m, f, e, seen, floor);
    var called := CallAll(env, m, [OwnHandler(f, e)], n.payload);
    CallAllPrefixFails(env, m, [OwnHandler(f, e)], wakes[..k], n.payload);
    forall i | 0 <= i < |wakes|
      ensures wakes[i] == Wake(debt.future, debt.fibers[i])
    {
      assert WakeFor(ListOf(m, f)[i + 2], f);
    }
    if called.Ok? {
      WakesRouted(env, m, OwnHandler(f, e), wakes, n.payload, called.value, seen + [e], debt, k);
    }
  }

  lemma DeliverRouted(env: Env, m: Machine, f: nat, e: Event, seen: seq<Event>, floor: int)
    requires Routed(m, seen, NoDebt(floor)) && Delivers(m, f, e, seen)
    ensures RoutedResult(Announce(env, m, NoticeOf(e).value), seen + [e], NoDebt(floor))
  {
    DeliveryPhases(env, m, f, e, seen, floor);
    var debt := Owed(m, f, floor);
    var n := |debt.fibers|;
    assert debt.fibers[n..] == [];
    hide Routed, Delivers, Delivered, Announce, Owed, FibersIn;
    StageRouted(env, m, f, e, seen, floor, n);
    if Announce(env, m, NoticeOf(e).value).Ok? {
      DebtPaid(Announce(env, m, NoticeOf(e).value).value, seen + [e], debt.(fibers := []), floor);
    }
  }

  lemma DebtPaid(m: Machine, seen: seq<Event>, debt: Debt, floor: int)
    requires Routed(m, seen, debt) && debt.fibers == [] && debt.floor == floor
    ensures Routed(m, seen, NoDebt(floor))
  {
    forall fiber: nat | fiber < |m.fibers| && m.fibers[fiber].Parked?
      ensures Sleeps(m, fiber, NoDebt(floor))
    {
      SleepsStill(m, m, fiber, debt);
    }
  }

  lemma {:induction false} CallAllPrefixFails(env: Env, m: Machine, a: seq<Handler>, b: seq<Handler>, p: Payload)
    ensures CallAll(env, m, a, p).Err? ==> CallAll(env, m, a + b, p) == CallAll(env, m, a, p)
    decreases |b|
  {
    if b == [] {
      assert a + b == a;
    } else {
      CallAllPrefixFails(env, m, a, b[..|b| - 1], p);
      assert (a + b)[..|a + b| - 1] == a + b[..|b| - 1];
    }
  }

  // ----- Events -----

  /** An event that closes nothing anybody tracks leaves every outcome as it is. */
  lemma SeenMore(m: Machine, e: Event, seen: seq<Event>, floor: int)
    requires Routed(m, seen, NoDebt(floor))
    requires Closing(e) ==> e.Target().id <= m.manager.lastEventId.value
    requires forall i :: 0 <= i < |m.futures| ==> !Closes(e, m.futures[i].target)
    ensures Routed(m, seen + [e], NoDebt(floor))
  {
    assert FuturesOk(m, seen + [e]) by {
      forall i | 0 <= i < |m.futures|
        ensures m.futures[i].status == Verdict(seen + [e], m.futures[i].target)
      {
        VerdictSnoc(seen, e, m.futures[i].target);
      }
      forall t
        ensures !Verdict(seen + [e], t).Pending? ==> t.id <= m.manager.lastEventId.value
      {
        VerdictSnoc(seen, e, t);
        if Closes(e, t) {
          ClosingTarget(e);
        }
      }
    }
  }

  /** What the server guarantees of an outcome: it answers a command that already existed, and it is the only one. */
  predicate FirstOutcome(e: Event, seen: seq<Event>, horizon: int) {
    Closing(e) ==> e.Target().id <= horizon && Verdict(seen, e.Target()).Pending?
  }

  lemma {:induction false} WorkflowSelect(rs: seq<Registration>, name: Name)
    requires forall k :: 0 <= k < |rs| ==> WorkflowHandler(rs[k])
    ensures forall i :: 0 <= i < |Select(rs, name)| ==> Select(rs, name)[i].Begin? || Select(rs, name)[i].SignalBlock?
  {
    if rs != [] {
      WorkflowSelect(rs[..|rs| - 1], name);
      assert WorkflowHandler(rs[|rs| - 1]);
    }
  }

  /** A notice for a target that no future owns reaches nobody, or only starts fibers. */
  lemma StrayNoticeRouted(env: Env, m: Machine, n: Notice, seen: seq<Event>, floor: int)
    requires Routed(m, seen, NoDebt(floor))
    requires forall i :: 0 <= i < |m.futures| ==> m.futures[i].target != n.target
    ensures RoutedResult(Announce(env, m, n), seen, NoDebt(floor))
  {
    var rs := HandlersAt(m.handlers, n.target);
    if n.target == WORKFLOW_TARGET {
      WorkflowSelect(rs, n.name);
      StartersRouted(env, m, Select(rs, n.name), n.payload, seen, NoDebt(floor));
    } else {
      assert forall i :: !OwnedBy(m, n.target, i);
      assert rs == [];
    }
  }

  lemma ApplyEventRouted(env: Env, m: Machine, e: Event, seen: seq<Event>, floor: int, horizon: int)
    requires Routed(m, seen, NoDebt(floor)) && horizon <= floor
    requires FirstOutcome(e, seen, horizon)
    ensures RoutedResult(ApplyEvent(env, m, e), seen + [e], NoDebt(floor))
  {
    hide Routed, RoutedResult, Announce, Absorb, NoticeOf, FirstOutcome;
    AbsorbFails(m.manager, e, seen, floor);
    if Absorb(m.manager, e).Ok? {
      var m1 := m.(manager := Absorb(m.manager, e).value);
      AbsorbRouted(m, e, seen, floor);
      NoticeRouted(env, m1, e, seen, floor, horizon);
      if NoticeOf(e).None? {
        NothingToSay(m1, e, seen, floor);
      }
    }
  }

  lemma AbsorbRouted(m: Machine, e: Event, seen: seq<Event>, floor: int)
    requires Routed(m, seen, NoDebt(floor)) && Absorb(m.manager, e).Ok?
    ensures Routed(m.(manager := Absorb(m.manager, e).value), seen, NoDebt(floor))
  {
    NewsLeavesCounter(m.manager, e);
    hide Absorb, HandlersOk, FibersOk, WaitersOk, DebtOk, LogOk, FuturesOk;
    ManagerOnly(m, Absorb(m.manager, e).value, seen, NoDebt(floor));
  }

  lemma NothingToSay(m: Machine, e: Event, seen: seq<Event>, floor: int)
    requires Routed(m, seen + [e], NoDebt(floor))
    ensures RoutedResult(Ok(m), seen + [e], NoDebt(floor))
  {
    hide Routed;
  }

  /** Dispatching an event: to the future it answers, or to nobody who waits. */
  lemma NoticeRouted(env: Env, m: Machine, e: Event, seen: seq<Event>, floor: int, horizon: int)
    requires Routed(m, seen, NoDebt(floor)) && horizon <= floor && FirstOutcome(e, seen, horizon)
    ensures
      if NoticeOf(e).Some? then RoutedResult(Announce(env, m, NoticeOf(e).value), seen + [e], NoDebt(floor))
      else Routed(m, seen + [e], NoDebt(floor))
  {
    hide HandlersOk, FibersOk, WaitersOk, DebtOk, LogOk, Announce;
    if exists f :: 0 <= f < |m.futures| && Closes(e, m.futures[f].target) {
      var f :| 0 <= f < |m.futures| && Closes(e, m.futures[f].target);
      ClosingTarget(e);
      DeliverRouted(env, m, f, e, seen, floor);
    } else {
      SeenMore(m, e, seen, floor);
      if NoticeOf(e).Some? {
        NotOwned(m, e, seen + [e]);
        StrayNoticeRouted(env, m, NoticeOf(e).value, seen + [e], floor);
      }
    }
  }

  lemma NewsLeavesCounter(m: ManagerState, e: Event)
    requires Absorb(m, e).Ok?
    ensures Absorb(m, e).value.lastEventId == m.lastEventId
  {
  }

  lemma AbsorbFails(m: ManagerState, e: Event, seen: seq<Event>, floor: int)
    ensures Absorb(m, e).Err? ==> RoutedResult(Err(Absorb(m, e).error), seen + [e], NoDebt(floor))
  {
  }

  lemma NotOwned(m: Machine, e: Event, seen: seq<Event>)
    requires LastKnown(m) && FuturesOk(m, seen) && NoticeOf(e).Some?
    requires forall f :: 0 <= f < |m.futures| ==> !Closes(e, m.futures[f].target)
    ensures forall i :: 0 <= i < |m.futures| ==> m.futures[i].target != NoticeOf(e).value.target
  {
  }

  /** The outcomes among these events all come first and in time. */
  predicate FirstOutcomes(es: seq<Event>, seen: seq<Event>, horizon: int) {
    forall i :: 0 <= i < |es| ==> FirstOutcome(es[i], seen + es[..i], horizon)
  }

  lemma {:induction false} ApplyEventsRouted(env: Env, m: Machine, es: seq<Event>, seen: seq<Event>, floor: int,
          horizon: int)
    requires Routed(m, seen, NoDebt(floor)) && horizon <= floor
    requires forall i :: 0 <= i < |es| ==> !es[i].kind.Discards() && !es[i].kind.MarkerRecorded?
    requires FirstOutcomes(es, seen, horizon)
    ensures RoutedResult(ApplyEvents(env, m, es), seen + es, NoDebt(floor))
    decreases |es|
  {
    hide Routed, ApplyEvent, FirstOutcome;
    if es == [] {
      assert seen + es == seen;
    } else {
      var front, last := es[..|es| - 1], es[|es| - 1];
      assert forall i :: 0 <= i < |front| ==> front[i] == es[i] && front[..i] == es[..i];
      ApplyEventsRouted(env, m, front, seen, floor, horizon);
      var before := ApplyEvents(env, m, front);
      assert seen + front + [last] == seen + es;
      if before.Ok? {
        ApplyEventRouted(env, before.value, last, seen + front, floor, horizon);
      }
    }
  }
}
