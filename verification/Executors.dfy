/** The executor as the mutable objects it is made of; every method is proved against the functions of `Engine`. */
module Executors {
  import opened Base
  import opened Decisions
  import opened Events
  import opened Histories
  import opened StateManagers
  import opened Engine

  /** A method that may raise did what the function says: the same error, or the same new state. */
  ghost predicate Did(spec: Result<Machine>, r: Result<()>, now: Machine) {
    match spec
    case Ok(m) => r.Ok? && now == m
    case Err(e) => r == Err(e)
  }

  /** `Workflow::Dispatcher`. */
  class Dispatcher {
    var handlers: Handlers

    constructor ()
      ensures handlers == map[]
    {
      handlers := map[];
    }

    method RegisterHandler(t: Target, r: Registration)
      modifies this
      ensures handlers == Register(old(handlers), t, r)
    {
      var list := if t in handlers then handlers[t] else [];
      handlers := handlers[t := list + [r]];
    }

    /** `handlers_for`: a snapshot, so handlers registered while it is being called are not in it. */
    method HandlersFor(t: Target, name: Name) returns (hs: seq<Handler>)
      ensures hs == Select(HandlersAt(handlers, t), name)
    {
      var list := if t in handlers then handlers[t] else [];
      hs := [];
      for i := 0 to |list|
        invariant hs == Select(list[..i], name)
      {
        assert list[..i + 1][..i] == list[..i];
        if list[i].name == name || list[i].name == Any {
          hs := hs + [list[i].handler];
        }
      }
      assert list[..|list|] == list;
    }
  }

  /** `Workflow::Executor` with its context: the state manager, the dispatcher, the futures and the fibers. */
  class Executor {
    const env: Env
    const manager: StateManager
    const dispatcher: Dispatcher
    var futures: seq<Future>
    var fibers: seq<Fiber>
    var blocks: nat
    var log: seq<LogEntry>

    ghost function View(): Machine
      reads this, manager, dispatcher
    {
      Machine(manager.View(), dispatcher.handlers, futures, fibers, blocks, log)
    }

    constructor (env: Env)
      ensures View() == FRESH_MACHINE && this.env == env
      ensures fresh(manager) && fresh(dispatcher)
    {
      this.env := env;
      manager := new StateManager();
      dispatcher := new Dispatcher();
      futures, fibers, blocks, log := [], [], 0, [];
      new;
      dispatcher.RegisterHandler(WORKFLOW_TARGET, Registration(OnStarted, Begin));
      assert HandlersAt(map[], WORKFLOW_TARGET) + [Registration(OnStarted, Begin)] == [Registration(OnStarted, Begin)];
    }

    // ----- Context -----

    method ExecuteTracked(t: Tracked) returns (a: Answer)
      requires t.decision.ScheduleActivity? || t.decision.StartChildWorkflow? || t.decision.StartTimer?
      modifies this, manager, dispatcher
      ensures Reply(View(), a) == StartTracked(old(View()), t.decision, t.settled, t.broken)
    {
      var scheduled := manager.Schedule(t.decision);
      if scheduled.Err? {
        return Raised(scheduled.error);
      }
      var issued := scheduled.value;
      var f := |futures|;
      futures := futures + [Future(issued.target, issued.cancelationId, [], Pending)];
      dispatcher.RegisterHandler(issued.target, Registration(t.settled, Settle(f)));
      dispatcher.RegisterHandler(issued.target, Registration(t.broken, Break(f)));
      return Handle(f);
    }

    method SchedulePlain(d: Decision) returns (a: Answer)
      requires !d.RecordMarker?
      modifies manager
      ensures Reply(View(), a) == StartPlain(old(View()), d)
    {
      var scheduled := manager.Schedule(d);
      return if scheduled.Ok? then Done else Raised(scheduled.error);
    }

    /** `side_effect`: the block runs only when no recorded value is left. */
    method DrawOrReplay() returns (a: Answer)
      modifies manager
      ensures Reply(View(), a) == Perform(env, old(View()), DrawSideEffect)
    {
      var recorded := manager.NextSideEffect();
      if recorded.Some? {
        return Drawn(recorded.value.value);
      }
      var result := env.oracle(manager.lastEventId);
      var scheduled := manager.Schedule(RecordMarker(SIDE_EFFECT_MARKER, result));
      return if scheduled.Ok? then Drawn(result) else Raised(scheduled.error);
    }

    method AboutFuture(r: Request) returns (a: Answer)
      requires r.Wait? || r.Inspect? || r.OnDone? || r.CancelFuture?
      modifies this, manager
      ensures Reply(View(), a) == AskFuture(old(View()), r)
    {
      if r.future >= |futures| {
        return Raised(BadReference);
      }
      var f := futures[r.future];
      if r.CancelFuture? {
        if !f.status.Pending? {
          return Flag(false);
        } else if f.target.kind == Activity {
          a := SchedulePlain(RequestActivityCancellation(f.cancelationId));
        } else if f.target.kind == Timer {
          a := SchedulePlain(CancelTimer(f.cancelationId));
        } else {
          return Raised(CannotCancel);
        }
      } else if r.OnDone? && f.status.Pending? {
        futures := futures[r.future := f.(callbacks := f.callbacks + [blocks])];
        blocks := blocks + 1;
        return Registered(blocks - 1);
      } else {
        return Observed(f.status);
      }
    }

    /** One request of the workflow code. */
    method Answer(r: Request) returns (a: Answer)
      modifies this, manager, dispatcher
      ensures Reply(View(), a) == Perform(env, old(View()), r)
    {
      if StartsTracked(r) {
        a := ExecuteTracked(TrackedFor(r));
      } else if StartsPlain(r) {
        a := SchedulePlain(PlainFor(r));
      } else if r.DrawSideEffect? {
        a := DrawOrReplay();
      } else if r.HasRelease? {
        var released := manager.Release(r.name);
        a := if released.Ok? then Flag(released.value) else Raised(released.error);
      } else if r.Now? {
        a := Time(manager.localTime);
      } else if r.OnSignal? {
        dispatcher.RegisterHandler(WORKFLOW_TARGET, Registration(OnSignaled, SignalBlock(blocks)));
        blocks := blocks + 1;
        a := Registered(blocks - 1);
      } else if r.Wait? || r.Inspect? || r.OnDone? || r.CancelFuture? {
        a := AboutFuture(r);
      } else {
        a := Done;
      }
    }

    // ----- Fibers -----

    /** The end of `execute_in_context`, or of a callback or signal block. */
    method EndFiber(root: bool, r: Request) returns (result: Result<()>)
      requires r.Return? || r.Raise?
      modifies manager
      ensures Did(Finish(old(View()), root, r), result, View())
    {
      if !root {
        return if r.Return? then Ok(()) else Err(Uncaught(r.reason, r.details));
      }
      var reason, details := "Error", Null;
      if r.Return? {
        var completed := manager.Schedule(CompleteWorkflow(r.result));
        if completed.Ok? {
          return Ok(());
        }
      } else {
        reason, details := r.reason, r.details;
      }
      var failed := manager.Schedule(FailWorkflow(reason, details));
      return if failed.Ok? then Ok(()) else Err(failed.error);
    }

    /** `Fiber#resume`: answers requests until the fiber parks or ends. */
    method RunFiber(fiber: nat, root: bool) returns (result: Result<()>)
      modifies this, manager, dispatcher
      ensures Did(Run(env, old(View()), fiber, root, env.budget), result, View())
    {
      hide Perform, Finish;
      var steps := env.budget;
      while steps > 0
        invariant Run(env, old(View()), fiber, root, env.budget) == Run(env, View(), fiber, root, steps)
      {
        var r := env.code(fiber, log);
        if r.Return? || r.Raise? {
          result := EndFiber(root, r);
          return;
        }
        if r.Wait? && r.future < |futures| && futures[r.future].status.Pending? {
          dispatcher.RegisterHandler(futures[r.future].target, Registration(Any, Wake(r.future, fiber)));
          if fiber < |fibers| {
            fibers := fibers[fiber := Parked(root, r.future)];
          }
          return Ok(());
        }
        var a := Answer(r);
        log := log + [Answered(fiber, r, a)];
        steps := steps - 1;
      }
      return Err(Hung);
    }

    method StartFiber(root: bool, e: LogEntry) returns (result: Result<()>)
      modifies this, manager, dispatcher
      ensures Did(Launch(env, old(View()), root, e), result, View())
    {
      fibers := fibers + [NotParked];
      log := log + [e];
      result := RunFiber(|fibers| - 1, root);
    }

    // ----- Handlers -----

    method CallBack(callbacks: seq<nat>, v: Value) returns (result: Result<()>)
      modifies this, manager, dispatcher
      ensures Did(RunCallbacks(env, old(View()), callbacks, v), result, View())
    {
      hide Launch;
      ghost var start := View();
      for i := 0 to |callbacks|
        invariant RunCallbacks(env, start, callbacks[..i], v) == Ok(View())
      {
        assert callbacks[..i + 1][..i] == callbacks[..i];
        result := StartFiber(false, Spawned(|fibers|, callbacks[i], Payload("", v)));
        if result.Err? {
          CallbacksFail(env, start, callbacks, v, i + 1);
          return;
        }
      }
      assert callbacks[..|callbacks|] == callbacks;
      return Ok(());
    }

    /** `Future#set` and the callbacks. */
    method SetFuture(f: nat, v: Value) returns (result: Result<()>)
      requires f < |futures|
      modifies this, manager, dispatcher
      ensures Did(SettleFuture(env, old(View()), f, v), result, View())
    {
      if futures[f].status.Broken? {
        return Err(FutureConflict);
      }
      futures := futures[f := futures[f].(status := Ready(v))];
      result := CallBack(futures[f].callbacks, v);
    }

    /** `Future#fail`. */
    method FailFuture(f: nat, p: Payload) returns (result: Result<()>)
      requires f < |futures|
      modifies this
      ensures Did(BreakFuture(old(View()), f, p), result, View())
    {
      if futures[f].status.Ready? {
        return Err(FutureConflict);
      }
      futures := futures[f := futures[f].(status := Broken(p.text, p.value))];
      return Ok(());
    }

    method ResumeWaiter(f: nat, fiber: nat) returns (result: Result<()>)
      requires f < |futures|
      modifies this, manager, dispatcher
      ensures Did(WakeFiber(env, old(View()), f, fiber), result, View())
    {
      if futures[f].status.Pending? {
        return Ok(());
      }
      if fiber >= |fibers| || fibers[fiber].NotParked? {
        return Err(DeadFiber);
      }
      var Parked(root, g) := fibers[fiber];
      if g >= |futures| {
        return Err(BadReference);
      }
      fibers := fibers[fiber := NotParked];
      log := log + [Answered(fiber, Wait(g), Observed(futures[g].status))];
      result := RunFiber(fiber, root);
    }

    method CallHandler(h: Handler, p: Payload) returns (result: Result<()>)
      modifies this, manager, dispatcher
      ensures Did(Call(env, old(View()), h, p), result, View())
    {
      hide Launch, SettleFuture, BreakFuture, WakeFiber;
      match h {
        case Begin => result := StartFiber(true, Began(|fibers|, p.value));
        case SignalBlock(b) => result := StartFiber(false, Spawned(|fibers|, b, p));
        case Settle(f) =>
          if f < |futures| {
            result := SetFuture(f, p.value);
          } else {
            result := Err(BadReference);
          }
        case Break(f) =>
          if f < |futures| {
            result := FailFuture(f, p);
          } else {
            result := Err(BadReference);
          }
        case Wake(f, fiber) =>
          if f < |futures| {
            result := ResumeWaiter(f, fiber);
          } else {
            result := Err(BadReference);
          }
      }
    }

    /** `Dispatcher#dispatch`. */
    method Dispatch(n: Notice) returns (result: Result<()>)
      modifies this, manager, dispatcher
      ensures Did(Announce(env, old(View()), n), result, View())
    {
      hide Call;
      var hs := dispatcher.HandlersFor(n.target, n.name);
      ghost var start := View();
      for i := 0 to |hs|
        invariant CallAll(env, start, hs[..i], n.payload) == Ok(View())
      {
        assert hs[..i + 1][..i] == hs[..i];
        result := CallHandler(hs[i], n.payload);
        if result.Err? {
          CallAllFails(env, start, hs, n.payload, i + 1);
          return;
        }
      }
      assert hs[..|hs|] == hs;
      return Ok(());
    }

    // ----- Events and windows -----

    method ApplyOne(e: Event) returns (result: Result<()>)
      modifies this, manager, dispatcher
      ensures Did(ApplyEvent(env, old(View()), e), result, View())
    {
      hide Announce, Absorb;
      var absorbed := manager.AbsorbEvent(e);
      if absorbed.Err? {
        return Err(absorbed.error);
      }
      var notice := NoticeOf(e);
      if notice.None? {
        return Ok(());
      }
      result := Dispatch(notice.value);
    }

    method ApplyInOrder(es: seq<Event>) returns (result: Result<()>)
      modifies this, manager, dispatcher
      ensures Did(ApplyEvents(env, old(View()), es), result, View())
    {
      hide ApplyEvent;
      ghost var start := View();
      for i := 0 to |es|
        invariant ApplyEvents(env, start, es[..i]) == Ok(View())
      {
        assert es[..i + 1][..i] == es[..i];
        result := ApplyOne(es[i]);
        if result.Err? {
          ApplyEventsFail(env, start, es, i + 1);
          return;
        }
      }
      assert es[..|es|] == es;
      return Ok(());
    }

    /** `StateManager#apply`. */
    method Apply(w: Window) returns (result: Result<()>)
      modifies this, manager, dispatcher
      ensures Did(ApplyWindow(env, old(View()), old(w.View())), result, View())
    {
      hide ApplyEvents;
      manager.replay, manager.localTime, manager.lastEventId := w.replay, w.localTime, w.lastEventId;
      var markers, events := w.markers, w.events;
      result := ApplyInOrder(markers);
      if result.Ok? {
        result := ApplyInOrder(events);
      }
    }

    /** `Executor#run`: window after window until the history is used up; the decisions left are the answer to the
        task. */
    method RunHistory(history: History) returns (result: Result<seq<Entry>>)
      requires history.Valid() && View() == FRESH_MACHINE
      modifies this, manager, dispatcher, history
      ensures
        match Execute(env, old(history.Unread()))
        case Ok(m) => View() == m && result == Ok(m.manager.decisions)
        case Err(e) => result == Err(e)
    {
      hide ApplyWindow, Collect, WindowLength;
      ghost var all := Split(history.Unread());
      ghost var done: seq<seq<Event>> := [];
      var w := history.NextWindow();
      ghost var unread := old(history.Unread());
      while w != null
        invariant history.Valid()
        invariant ApplyWindows(env, FRESH_MACHINE, done) == Ok(View())
        invariant (w == null) == (unread == [])
        invariant w != null ==> history.Unread() == unread[WindowLength(unread)..]
        invariant w != null ==> w.View() == Collect(unread[..WindowLength(unread)])
        invariant done + Split(unread) == all
        decreases |unread|
      {
        var applied := Apply(w);
        ghost var segment := unread[..WindowLength(unread)];
        assert (done + [segment])[..|done|] == done;
        assert done + [segment] + Split(history.Unread()) == all;
        if applied.Err? {
          ApplyWindowsFail(env, done + [segment], Split(history.Unread()));
          return Err(applied.error);
        }
        done := done + [segment];
        unread := history.Unread();
        w := history.NextWindow();
      }
      assert done == all;
      return Ok(manager.decisions);
    }
  }

  // ----- A loop that stops at the first error -----

  lemma {:induction false} CallbacksFail(env: Env, m: Machine, blocks: seq<nat>, v: Value, n: nat)
    requires n <= |blocks| && RunCallbacks(env, m, blocks[..n], v).Err?
    ensures RunCallbacks(env, m, blocks, v) == RunCallbacks(env, m, blocks[..n], v)
    decreases |blocks|
  {
    if n == |blocks| {
      assert blocks[..n] == blocks;
    } else {
      var front := blocks[..|blocks| - 1];
      assert front[..n] == blocks[..n];
      CallbacksFail(env, m, front, v, n);
    }
  }

  lemma {:induction false} CallAllFails(env: Env, m: Machine, hs: seq<Handler>, p: Payload, n: nat)
    requires n <= |hs| && CallAll(env, m, hs[..n], p).Err?
    ensures CallAll(env, m, hs, p) == CallAll(env, m, hs[..n], p)
    decreases |hs|
  {
    if n == |hs| {
      assert hs[..n] == hs;
    } else {
      var front := hs[..|hs| - 1];
      assert front[..n] == hs[..n];
      CallAllFails(env, m, front, p, n);
    }
  }

  lemma {:induction false} ApplyEventsFail(env: Env, m: Machine, es: seq<Event>, n: nat)
    requires n <= |es| && ApplyEvents(env, m, es[..n]).Err?
    ensures ApplyEvents(env, m, es) == ApplyEvents(env, m, es[..n])
    decreases |es|
  {
    if n == |es| {
      assert es[..n] == es;
    } else {
      var front := es[..|es| - 1];
      assert front[..n] == es[..n];
      ApplyEventsFail(env, m, front, n);
    }
  }

  lemma {:induction false} ApplyWindowsFail(env: Env, done: seq<seq<Event>>, rest: seq<seq<Event>>)
    requires ApplyWindows(env, FRESH_MACHINE, done).Err?
    ensures ApplyWindows(env, FRESH_MACHINE, done + rest) == ApplyWindows(env, FRESH_MACHINE, done)
    decreases |rest|
  {
    if rest == [] {
      assert done + rest == done;
    } else {
      var front := rest[..|rest| - 1];
      assert (done + rest)[..|done + rest| - 1] == done + front;
      ApplyWindowsFail(env, done, front);
    }
  }
}
