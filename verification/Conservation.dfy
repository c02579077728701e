/** The decision list over arbitrary runs: for any code and any history, well-formed or not. */
module Conservation {
  import opened Base
  import opened Decisions
  import opened Events
  import opened Histories
  import opened StateManagers
  import opened Engine
  import opened Growth

  // ----- What the code orders -----

  /** The id under which the next decision is scheduled: the least above the counter that no recorded marker has. */
  function NextId(m: ManagerState): int
    requires m.lastEventId.Some?
  {
    NextFreeId(m.lastEventId.value, m.markerIds)
  }

  /** The identifier that the workflow gave, or the id of the decision itself. */
  function Given(id: Option<Ident>, default: int): Ident {
    if id.Some? then id.value else IntId(default)
  }

  /** The decision that a request asks for when it is scheduled under `id`, field by field; none for requests about
      something else. A side effect or a release with a recorded value schedules nothing. */
  function DecisionFor(env: Env, m: Machine, r: Request, id: int): Option<Decision> {
    match r
    case ExecuteActivity(given, t, i) => Some(ScheduleActivity(Some(Given(given, id)), t, i))
    case ExecuteWorkflow(given, t, i) => Some(StartChildWorkflow(Some(Given(given, id)), t, i))
    case SetTimer(t, given) => Some(StartTimer(t, Some(Given(given, id))))
    case CancelActivityById(quoted) => Some(RequestActivityCancellation(quoted))
    case CancelTimerById(quoted) => Some(CancelTimer(quoted))
    case Complete(v) => Some(CompleteWorkflow(v))
    case Fail(reason, details) => Some(FailWorkflow(reason, details))
    case DrawSideEffect =>
      if m.manager.sideEffects != [] then None
      else Some(RecordMarker(SIDE_EFFECT_MARKER, env.oracle(m.manager.lastEventId)))
    case HasRelease(name) =>
      if Text(name) in m.manager.releases || m.manager.replay then None
      else Some(RecordMarker(RELEASE_MARKER, Text(name)))
    case CancelFuture(f) =>
      if f >= |m.futures| || !m.futures[f].status.Pending? then None
      else if m.futures[f].target.kind == Activity then Some(RequestActivityCancellation(m.futures[f].cancelationId))
      else if m.futures[f].target.kind == Timer then Some(CancelTimer(m.futures[f].cancelationId))
      else None
    case _ => None
  }

  /** The decisions that one request scheduled, judged by its answer alone: the code was not told of an exception. */
  function OrdersOf(env: Env, m: Machine, r: Request, a: Answer): seq<Entry> {
    if a.Raised? || m.manager.lastEventId.None? then []
    else
      var id := NextId(m.manager);
      var d := DecisionFor(env, m, r, id);
      if d.Some? then [Entry(id, d.value)] else []
  }

  /** The last decision of a root fiber that ended without raising: the result it returned or the failure it raised. */
  function LastOrders(m: Machine, root: bool, r: Request): seq<Entry>
    requires r.Return? || r.Raise?
  {
    if !root || m.manager.lastEventId.None? then []
    else
      [Entry(NextId(m.manager), if r.Return? then CompleteWorkflow(r.result) else FailWorkflow(r.reason, r.details))]
  }

  /** Everything that a fiber schedules until it parks or ends: its requests, one by one. */
  function RunOrders(env: Env, m: Machine, fiber: nat, root: bool, steps: nat): seq<Entry>
    decreases steps
  {
    if steps == 0 then []
    else
      var r := env.code(fiber, m.log);
      if r.Return? || r.Raise? then LastOrders(m, root, r)
      else if MustPark(m, r) then []
      else
        var reply := Perform(env, m, r);
        OrdersOf(env, m, r, reply.answer)
        + RunOrders(env, Logged(reply.machine, Answered(fiber, r, reply.answer)), fiber, root, steps - 1)
  }

  function LaunchOrders(env: Env, m: Machine, root: bool, e: LogEntry): seq<Entry> {
    RunOrders(env, Logged(m.(fibers := m.fibers + [NotParked]), e), |m.fibers|, root, env.budget)
  }

  function CallbackOrders(env: Env, m: Machine, blocks: seq<nat>, v: Value): seq<Entry> {
    if blocks == [] then []
    else
      var front, last := blocks[..|blocks| - 1], blocks[|blocks| - 1];
      var before := RunCallbacks(env, m, front, v);
      CallbackOrders(env, m, front, v)
      + if before.Ok? then
          LaunchOrders(env, before.value, false, Spawned(|before.value.fibers|, last, Payload("", v)))
        else []
  }

  function WakeOrders(env: Env, m: Machine, f: nat, fiber: nat): seq<Entry>
    requires f < |m.futures|
  {
    if m.futures[f].status.Pending? || fiber >= |m.fibers| || m.fibers[fiber].NotParked? then []
    else
      var Parked(root, g) := m.fibers[fiber];
      if g >= |m.futures| then []
      else
        var e := Answered(fiber, Wait(g), Observed(m.futures[g].status));
        RunOrders(env, Logged(m.(fibers := m.fibers[fiber := NotParked]), e), fiber, root, env.budget)
  }

  function CallOrders(env: Env, m: Machine, h: Handler, p: Payload): seq<Entry> {
    match h
    case Begin => LaunchOrders(env, m, true, Began(|m.fibers|, p.value))
    case SignalBlock(b) => LaunchOrders(env, m, false, Spawned(|m.fibers|, b, p))
    case Settle(f) =>
      if f < |m.futures| then CallbackOrders(env, WithStatus(m, f, Ready(p.value)), m.futures[f].callbacks, p.value)
      else []
    case Break(f) => []
    case Wake(f, fiber) => if f < |m.futures| then WakeOrders(env, m, f, fiber) else []
  }

  function CallAllOrders(env: Env, m: Machine, hs: seq<Handler>, p: Payload): seq<Entry> {
    if hs == [] then []
    else
      var front, last := hs[..|hs| - 1], hs[|hs| - 1];
      var before := CallAll(env, m, front, p);
      CallAllOrders(env, m, front, p) + if before.Ok? then CallOrders(env, before.value, last, p) else []
  }

  /** The decisions that the code scheduled while one event was applied. */
  function IssuedByEvent(env: Env, m: Machine, e: Event): seq<Entry> {
    var notice := NoticeOf(e);
    if Absorb(m.manager, e).Err? || notice.None? then []
    else
      CallAllOrders(env, Absorbed(m, e), Select(HandlersAt(m.handlers, notice.value.target), notice.value.name),
                    notice.value.payload)
  }

  function IssuedByEvents(env: Env, m: Machine, es: seq<Event>): seq<Entry> {
    if es == [] then []
    else
      var front, last := es[..|es| - 1], es[|es| - 1];
      var before := ApplyEvents(env, m, front);
      IssuedByEvents(env, m, front) + (if before.Ok? then IssuedByEvent(env, before.value, last) else [])
  }

  function IssuedByWindow(env: Env, m: Machine, w: WindowState): seq<Entry> {
    var loaded := ApplyEvents(env, Entered(m, w), w.markers);
    IssuedByEvents(env, Entered(m, w), w.markers)
    + (if loaded.Ok? then IssuedByEvents(env, loaded.value, w.events) else [])
  }

  /** Everything scheduled over a run, in order. */
  function IssuedByWindows(env: Env, m: Machine, segments: seq<seq<Event>>): seq<Entry> {
    if segments == [] then []
    else
      var front, last := segments[..|segments| - 1], segments[|segments| - 1];
      var before := ApplyWindows(env, m, front);
      IssuedByWindows(env, m, front) + (if before.Ok? then IssuedByWindow(env, before.value, Collect(last)) else [])
  }

  /** The events that claim to echo a decision, in the order in which they are applied. */
  function Discarding(es: seq<Event>): seq<Event> {
    if es == [] then []
    else Discarding(es[..|es| - 1]) + (if es[|es| - 1].kind.Discards() then [es[|es| - 1]] else [])
  }

  function DiscardingWindows(segments: seq<seq<Event>>): seq<Event> {
    if segments == [] then []
    else
      var w := Collect(segments[|segments| - 1]);
      DiscardingWindows(segments[..|segments| - 1]) + (Discarding(w.markers) + Discarding(w.events))
  }

  /** An event echoes a decision: same event id, same kind of command, and for activities the same activity id, as the
      wire gives it back, the same type and the same input. */
  predicate Echoes(e: Event, d: Entry) {
    && e.id == d.id
    && match (e.kind, d.decision)
       case (ActivityTaskScheduled(wire, t, i, _), ScheduleActivity(Some(id), t', i')) =>
         Decimal.FromWire(wire) == id && t == t' && i == i'
       case (ActivityTaskCancelRequested, RequestActivityCancellation(_)) => true
       case (RequestCancelActivityTaskFailed(_), RequestActivityCancellation(_)) => true
       case (TimerStarted, StartTimer(_, _)) => true
       case (TimerCanceled, CancelTimer(_)) => true
       case (StartChildWorkflowExecutionInitiated, StartChildWorkflow(_, _, _)) => true
       case _ => false
  }

  /** `issued` splits into the decisions that `echoed` matched, in order, and the ones still `left`. */
  predicate Accounts(issued: seq<Entry>, echoed: seq<Event>, left: seq<Entry>) {
    && |issued| == |echoed| + |left|
    && issued[|echoed|..] == left
    && forall i :: 0 <= i < |echoed| ==> Echoes(echoed[i], issued[i])
  }

  /** Accounting composes: what one stage leaves is what the next starts from. */
  lemma AccountsCompose(first: seq<Entry>, echoed: seq<Event>, left: seq<Entry>, more: seq<Entry>,
          echoed': seq<Event>, left': seq<Entry>)
    requires Accounts(first, echoed, left) && Accounts(left + more, echoed', left')
    ensures Accounts(first + more, echoed + echoed', left')
  {
    var all := first + more;
    assert all == first[..|echoed|] + (left + more);
    assert all[|echoed| + |echoed'|..] == (left + more)[|echoed'|..];
    assert forall i :: 0 <= i < |echoed| ==> all[i] == first[i];
    assert forall i :: 0 <= i < |echoed'| ==> all[|echoed| + i] == (left + more)[i];
  }

  lemma AccountsChain(start: seq<Entry>, issued: seq<Entry>, echoed: seq<Event>, left: seq<Entry>, more: seq<Entry>,
                      echoed': seq<Event>, left': seq<Entry>)
    requires Accounts(start + issued, echoed, left) && Accounts(left + more, echoed', left')
    ensures Accounts(start + (issued + more), echoed + echoed', left')
  {
    hide Accounts;
    AccountsCompose(start + issued, echoed, left, more, echoed', left');
    assert start + issued + more == start + (issued + more);
  }

  /** Absorbing an event consumes the oldest decision exactly when the event claims to echo one. */
  lemma AbsorbAccounts(m: ManagerState, e: Event)
    requires Absorb(m, e).Ok?
    ensures Accounts(m.decisions, if e.kind.Discards() then [e] else [], Absorb(m, e).value.decisions)
  {
  }

  // ----- Every order is carried out -----

  lemma ScheduleCarriesOut(m: ManagerState, d: Decision)
    ensures
      var o := ScheduleDecision(m, d);
      if o.result.Ok? then
        m.lastEventId.Some? && o.state.decisions == m.decisions + [Entry(NextId(m), WithDefaultId(d, NextId(m)))]
      else o.state.decisions == m.decisions
  {
  }

  lemma TrackedCarriesOut(env: Env, m: Machine, r: Request)
    requires StartsTracked(r)
    ensures
      var reply := Perform(env, m, r);
      reply.machine.manager.decisions == m.manager.decisions + OrdersOf(env, m, r, reply.answer)
  {
    hide ScheduleDecision, Register, NextFreeId, Keeps, OnlyRequests, AllAnswerable, Grows, Extends;
    ScheduleCarriesOut(m.manager, TrackedFor(r).decision);
  }

  lemma OthersCarryOut(env: Env, m: Machine, r: Request)
    requires !StartsTracked(r)
    ensures
      var reply := Perform(env, m, r);
      reply.machine.manager.decisions == m.manager.decisions + OrdersOf(env, m, r, reply.answer)
  {
    hide ScheduleDecision, Register, NextFreeId, Keeps, OnlyRequests, AllAnswerable, Grows, Extends;
    var d := DecisionFor(env, m, r, 0);
    if d.Some? {
      ScheduleCarriesOut(m.manager, d.value);
      if r.HasRelease? {
        ScheduleCarriesOut(m.manager.(releases := m.manager.releases[Text(r.name) := true]), d.value);
      }
    }
  }

  /** A request extends the decision list by exactly what its answer says. */
  lemma PerformCarriesOut(env: Env, m: Machine, r: Request)
    ensures
      var reply := Perform(env, m, r);
      reply.machine.manager.decisions == m.manager.decisions + OrdersOf(env, m, r, reply.answer)
  {
    hide *;
    if StartsTracked(r) {
      TrackedCarriesOut(env, m, r);
    } else {
      OthersCarryOut(env, m, r);
    }
  }

  lemma FinishCarriesOut(m: Machine, root: bool, r: Request)
    requires (r.Return? || r.Raise?) && Finish(m, root, r).Ok?
    ensures Finish(m, root, r).value.manager.decisions == m.manager.decisions + LastOrders(m, root, r)
  {
    if root {
      ScheduleCarriesOut(
        m.manager, if r.Return? then CompleteWorkflow(r.result) else FailWorkflow(r.reason, r.details));
    }
  }

  lemma {:induction false} RunCarriesOut(env: Env, m: Machine, fiber: nat, root: bool, steps: nat)
    requires Run(env, m, fiber, root, steps).Ok?
    ensures
      Run(env, m, fiber, root, steps).value.manager.decisions
      == m.manager.decisions + RunOrders(env, m, fiber, root, steps)
    decreases steps
  {
    hide Perform, Finish, OrdersOf, LastOrders;
    var r := env.code(fiber, m.log);
    if r.Return? || r.Raise? {
      FinishCarriesOut(m, root, r);
    } else if !MustPark(m, r) {
      var reply := Perform(env, m, r);
      var next := Logged(reply.machine, Answered(fiber, r, reply.answer));
      PerformCarriesOut(env, m, r);
      RunCarriesOut(env, next, fiber, root, steps - 1);
    }
  }

  lemma LaunchCarriesOut(env: Env, m: Machine, root: bool, e: LogEntry)
    requires Launch(env, m, root, e).Ok?
    ensures
      Launch(env, m, root, e).value.manager.decisions == m.manager.decisions + LaunchOrders(env, m, root, e)
  {
    hide Run, RunOrders;
    RunCarriesOut(env, Logged(m.(fibers := m.fibers + [NotParked]), e), |m.fibers|, root, env.budget);
  }

  lemma {:induction false} CallbacksCarryOut(env: Env, m: Machine, blocks: seq<nat>, v: Value)
    requires RunCallbacks(env, m, blocks, v).Ok?
    ensures
      RunCallbacks(env, m, blocks, v).value.manager.decisions
      == m.manager.decisions + CallbackOrders(env, m, blocks, v)
    decreases |blocks|
  {
    hide Launch, LaunchOrders;
    if blocks != [] {
      var front, last := blocks[..|blocks| - 1], blocks[|blocks| - 1];
      CallbacksCarryOut(env, m, front, v);
      var before := RunCallbacks(env, m, front, v).value;
      LaunchCarriesOut(env, before, false, Spawned(|before.fibers|, last, Payload("", v)));
    }
  }

  lemma WakeCarriesOut(env: Env, m: Machine, f: nat, fiber: nat)
    requires f < |m.futures| && WakeFiber(env, m, f, fiber).Ok?
    ensures
      WakeFiber(env, m, f, fiber).value.manager.decisions == m.manager.decisions + WakeOrders(env, m, f, fiber)
  {
    hide Run, RunOrders;
    if !m.futures[f].status.Pending? {
      var Parked(root, g) := m.fibers[fiber];
      var e := Answered(fiber, Wait(g), Observed(m.futures[g].status));
      RunCarriesOut(env, Logged(m.(fibers := m.fibers[fiber := NotParked]), e), fiber, root, env.budget);
    }
  }

  lemma CallCarriesOut(env: Env, m: Machine, h: Handler, p: Payload)
    requires Call(env, m, h, p).Ok?
    ensures Call(env, m, h, p).value.manager.decisions == m.manager.decisions + CallOrders(env, m, h, p)
  {
    hide Launch, LaunchOrders, RunCallbacks, CallbackOrders, WakeFiber, WakeOrders;
    match h
    case Begin => LaunchCarriesOut(env, m, true, Began(|m.fibers|, p.value));
    case SignalBlock(b) => LaunchCarriesOut(env, m, false, Spawned(|m.fibers|, b, p));
    case Settle(f) => CallbacksCarryOut(env, WithStatus(m, f, Ready(p.value)), m.futures[f].callbacks, p.value);
    case Break(f) =>
    case Wake(f, fiber) => WakeCarriesOut(env, m, f, fiber);
  }

  lemma {:induction false} CallAllCarriesOut(env: Env, m: Machine, hs: seq<Handler>, p: Payload)
    requires CallAll(env, m, hs, p).Ok?
    ensures CallAll(env, m, hs, p).value.manager.decisions == m.manager.decisions + CallAllOrders(env, m, hs, p)
    decreases |hs|
  {
    hide Call, CallOrders;
    if hs != [] {
      CallAllCarriesOut(env, m, hs[..|hs| - 1], p);
      CallCarriesOut(env, CallAll(env, m, hs[..|hs| - 1], p).value, hs[|hs| - 1], p);
    }
  }

  /** Applying an event adds to what is left after absorbing it exactly what the code ordered. */
  lemma AppliedGrows(env: Env, m: Machine, e: Event)
    requires ApplyEvent(env, m, e).Ok?
    ensures Absorb(m.manager, e).Ok?
    ensures Absorb(m.manager, e).value.decisions + IssuedByEvent(env, m, e)
        == ApplyEvent(env, m, e).value.manager.decisions
  {
    hide Absorb, CallAll, CallAllOrders;
    var notice := NoticeOf(e);
    if notice.Some? {
      CallAllCarriesOut(env, Absorbed(m, e), Select(HandlersAt(m.handlers, notice.value.target), notice.value.name),
          notice.value.payload);
    }
  }

  lemma EventAccounts(env: Env, m: Machine, e: Event)
    requires ApplyEvent(env, m, e).Ok?
    ensures
      Accounts(m.manager.decisions + IssuedByEvent(env, m, e), if e.kind.Discards() then [e] else [],
               ApplyEvent(env, m, e).value.manager.decisions)
  {
    hide Absorb, Accounts, IssuedByEvent, ApplyEvent;
    AppliedGrows(env, m, e);
    AbsorbAccounts(m.manager, e);
    var after := ApplyEvent(env, m, e).value.manager.decisions;
    var echoed := if e.kind.Discards() then [e] else [];
    NothingAccounts(after);
    AccountsCompose(m.manager.decisions, echoed, Absorb(m.manager, e).value.decisions, IssuedByEvent(env, m, e), [],
        after);
    assert echoed + [] == echoed;
  }

  lemma {:induction false} EventsAccount(env: Env, m: Machine, es: seq<Event>)
    requires ApplyEvents(env, m, es).Ok?
    ensures
      Accounts(m.manager.decisions + IssuedByEvents(env, m, es), Discarding(es), ApplyEvents(env, m,
          es).value.manager.decisions)
    decreases |es|
  {
    hide Accounts, IssuedByEvent, ApplyEvent;
    if es == [] {
      NothingAccounts(m.manager.decisions);
      assert m.manager.decisions + [] == m.manager.decisions;
    } else {
      var front, last := es[..|es| - 1], es[|es| - 1];
      var before := ApplyEvents(env, m, front).value;
      EventsAccount(env, m, front);
      EventAccounts(env, before, last);
      AccountsChain(m.manager.decisions, IssuedByEvents(env, m, front), Discarding(front), before.manager.decisions,
                    IssuedByEvent(env, before, last), if last.kind.Discards() then [last] else [],
                    ApplyEvents(env, m, es).value.manager.decisions);
    }
  }

  lemma NothingAccounts(es: seq<Entry>)
    ensures Accounts(es, [], es)
  {
  }

  lemma WindowAccounts(env: Env, m: Machine, w: WindowState)
    requires ApplyWindow(env, m, w).Ok?
    ensures
      Accounts(m.manager.decisions + IssuedByWindow(env, m, w), Discarding(w.markers) + Discarding(w.events),
               ApplyWindow(env, m, w).value.manager.decisions)
  {
    var entered := Entered(m, w);
    var loaded := ApplyEvents(env, entered, w.markers).value;
    EventsAccount(env, entered, w.markers);
    EventsAccount(env, loaded, w.events);
    AccountsChain(m.manager.decisions, IssuedByEvents(env, entered, w.markers), Discarding(w.markers),
        loaded.manager.decisions,
                  IssuedByEvents(env, loaded, w.events), Discarding(w.events), ApplyWindow(env, m,
                      w).value.manager.decisions);
  }

  lemma {:induction false} WindowsAccount(env: Env, m: Machine, segments: seq<seq<Event>>)
    requires ApplyWindows(env, m, segments).Ok?
    ensures
      Accounts(m.manager.decisions + IssuedByWindows(env, m, segments), DiscardingWindows(segments),
               ApplyWindows(env, m, segments).value.manager.decisions)
    decreases |segments|
  {
    hide Accounts, IssuedByWindow, ApplyWindow;
    if segments == [] {
      NothingAccounts(m.manager.decisions);
      assert m.manager.decisions + [] == m.manager.decisions;
    } else {
      var front, last := segments[..|segments| - 1], Collect(segments[|segments| - 1]);
      var before := ApplyWindows(env, m, front).value;
      WindowsAccount(env, m, front);
      WindowAccounts(env, before, last);
      var more := IssuedByWindow(env, before, last);
      AccountsChain(m.manager.decisions, IssuedByWindows(env, m, front), DiscardingWindows(front),
          before.manager.decisions,
                    more, Discarding(last.markers) + Discarding(last.events),
                    ApplyWindows(env, m, segments).value.manager.decisions);
    }
  }

  /** The determinism check is sound and loses nothing: if a run over any history ends without an error, then all that
      the code scheduled is, in order, what the recorded commands echoed followed by what the run returns. */
  lemma QueueConservation(env: Env, history: seq<Event>)
    requires Execute(env, history).Ok?
    ensures
      Accounts(IssuedByWindows(env, FRESH_MACHINE, Split(history)), DiscardingWindows(Split(history)),
               Execute(env, history).value.manager.decisions)
  {
    var none: seq<Entry> := [];
    WindowsAccount(env, FRESH_MACHINE, Split(history));
    assert none + IssuedByWindows(env, FRESH_MACHINE, Split(history))
        == IssuedByWindows(env, FRESH_MACHINE, Split(history));
  }

  // ----- The terminal decision -----

  lemma EventTerminalLast(env: Env, m: Machine, e: Event)
    requires TerminalLast(m.manager.decisions) && ApplyEvent(env, m, e).Ok?
    ensures TerminalLast(ApplyEvent(env, m, e).value.manager.decisions)
  {
    hide CallAll, Tidy;
    var absorbed := Absorb(m.manager, e).value;
    var notice := NoticeOf(e);
    if notice.Some? {
      var m1 := m.(manager := absorbed);
      CallAllGrows(env, m1, Select(HandlersAt(m1.handlers, notice.value.target), notice.value.name),
          notice.value.payload);
    }
  }

  lemma {:induction false} EventsTerminalLast(env: Env, m: Machine, es: seq<Event>)
    requires TerminalLast(m.manager.decisions) && ApplyEvents(env, m, es).Ok?
    ensures TerminalLast(ApplyEvents(env, m, es).value.manager.decisions)
    decreases |es|
  {
    if es != [] {
      EventsTerminalLast(env, m, es[..|es| - 1]);
      EventTerminalLast(env, ApplyEvents(env, m, es[..|es| - 1]).value, es[|es| - 1]);
    }
  }

  lemma {:induction false} WindowsTerminalLast(env: Env, m: Machine, segments: seq<seq<Event>>)
    requires TerminalLast(m.manager.decisions) && ApplyWindows(env, m, segments).Ok?
    ensures TerminalLast(ApplyWindows(env, m, segments).value.manager.decisions)
    decreases |segments|
  {
    if segments != [] {
      var before := ApplyWindows(env, m, segments[..|segments| - 1]).value;
      WindowsTerminalLast(env, m, segments[..|segments| - 1]);
      var w := Collect(segments[|segments| - 1]);
      EventsTerminalLast(env, Entered(before, w), w.markers);
      EventsTerminalLast(env, ApplyEvents(env, Entered(before, w), w.markers).value, w.events);
    }
  }

  /** Whatever the code and the history, the returned decisions complete or fail the workflow at most once, and last. */
  lemma TerminalDecisionIsLast(env: Env, history: seq<Event>)
    requires Execute(env, history).Ok?
    ensures TerminalLast(Execute(env, history).value.manager.decisions)
  {
    WindowsTerminalLast(env, FRESH_MACHINE, Split(history));
  }

  lemma {:induction false} DiscardingDiscards(segments: seq<seq<Event>>)
    ensures forall e :: e in DiscardingWindows(segments) ==> e.kind.Discards()
  {
    if segments != [] {
      var w := Collect(segments[|segments| - 1]);
      DiscardingDiscards(segments[..|segments| - 1]);
      DiscardingOnly(w.markers);
      DiscardingOnly(w.events);
    }
  }

  lemma {:induction false} DiscardingOnly(es: seq<Event>)
    ensures forall e :: e in Discarding(es) ==> e.kind.Discards()
  {
    if es != [] {
      DiscardingOnly(es[..|es| - 1]);
    }
  }

  /** No command event echoes a decision that closes the workflow. */
  lemma EchoedGoesOn(e: Event, d: Entry)
    requires e.kind.Discards() && Echoes(e, d)
    ensures !d.decision.Terminal()
  {
  }

  /** Over every run of any code on any history, what the code has scheduled from beginning to end completes or fails
      the workflow at most once, and nothing is scheduled after that. */
  lemma TerminalOrderIsLast(env: Env, history: seq<Event>)
    requires Execute(env, history).Ok?
    ensures TerminalLast(IssuedByWindows(env, FRESH_MACHINE, Split(history)))
    ensures
      var issued := IssuedByWindows(env, FRESH_MACHINE, Split(history));
      EndsTerminal(issued) <==> EndsTerminal(Execute(env, history).value.manager.decisions)
  {
    hide IssuedByWindows, DiscardingWindows, Execute, Split, Echoes;
    QueueConservation(env, history);
    TerminalDecisionIsLast(env, history);
    DiscardingDiscards(Split(history));
    var issued, echoed := IssuedByWindows(env, FRESH_MACHINE, Split(history)), DiscardingWindows(Split(history));
    var left := Execute(env, history).value.manager.decisions;
    forall i | 0 <= i < |echoed|
      ensures !issued[i].decision.Terminal()
    {
      EchoedGoesOn(echoed[i], issued[i]);
    }
    assert forall i :: |echoed| <= i < |issued| ==> issued[i] == left[i - |echoed|];
  }
}
