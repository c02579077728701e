/** One executor: workflow code running in fibers over the state manager, the dispatcher and futures. Models
    `context.rb`, `dispatcher.rb`, `future.rb`, `executor.rb`, `workflow.rb` and `StateManager#apply`. */
module Engine {
  import opened Base
  import opened Decisions
  import opened Events
  import opened Histories
  import opened StateManagers

  // ----- Workflow code -----

  /** What workflow code can ask of its context, and the two ways a fiber can end. */
  datatype Request =
    | Return(result: Value)
    | Raise(reason: string, details: Value)
    | ExecuteActivity(activityId: Option<Ident>, activityType: string, input: Value)
    | ExecuteWorkflow(workflowId: Option<Ident>, workflowType: string, input: Value)
    | SetTimer(timeout: int, timerId: Option<Ident>)
    | DrawSideEffect
    | HasRelease(name: string)
    | Now
    | Wait(future: nat)
    | Inspect(future: nat)
    | OnDone(future: nat)
    | OnSignal
    | CancelFuture(future: nat)
    | CancelActivityById(id: Option<Ident>)
    | CancelTimerById(id: Option<Ident>)
    | Complete(result: Value)
    | Fail(reason: string, details: Value)

  datatype Status = Pending | Ready(value: Value) | Broken(reason: string, details: Value)

  datatype Answer =
    | Handle(future: nat)
    | Drawn(value: Value)
    | Flag(flag: bool)
    | Time(time: Option<int>)
    | Observed(status: Status)
    | Registered(block: nat)
    | Done
    | Raised(error: Error)

  /** Everything that ever happens to workflow code: fibers starting and requests being answered. */
  datatype LogEntry =
    | Began(fiber: nat, input: Value)
    | Spawned(fiber: nat, block: nat, payload: Payload)
    | Answered(fiber: nat, request: Request, answer: Answer)

  /** Deterministic workflow code: what a fiber does next is a function of all that has happened to the code so far.
      Fibers may share variables, loop forever and nest blocks freely. */
  type Code = (nat, seq<LogEntry>) -> Request

  /** The code, the values that live side-effect blocks produce (keyed by the id counter when the block runs) and the
      number of requests a fiber may make before it counts as hung. */
  datatype Env = Env(code: Code, oracle: Option<int> -> Value, budget: nat)

  // ----- State -----

  datatype Payload = Payload(text: string, value: Value)

  datatype Name = OnStarted | OnCompleted | OnFailed | OnFired | OnCanceled | OnSignaled | Any

  datatype Handler =
    | Begin
    | Settle(future: nat)
    | Break(future: nat)
    | Wake(future: nat, fiber: nat)
    | SignalBlock(block: nat)

  datatype Registration = Registration(name: Name, handler: Handler)

  type Handlers = map<Target, seq<Registration>>

  datatype Future = Future(target: Target, cancelationId: Option<Ident>, callbacks: seq<nat>, status: Status)

  /** A fiber is parked in `wait_for`, or running, or finished. */
  datatype Fiber = Parked(root: bool, future: nat) | NotParked

  datatype Machine = Machine(
    manager: ManagerState,
    handlers: Handlers,
    futures: seq<Future>,
    fibers: seq<Fiber>,
    blocks: nat,
    log: seq<LogEntry>)

  /** An executor before its first window: only the workflow's start is listened for. */
  const FRESH_MACHINE := Machine(FRESH_MANAGER, map[WORKFLOW_TARGET := [Registration(OnStarted, Begin)]], [], [], 0, [])

  function HandlersAt(h: Handlers, t: Target): seq<Registration> {
    if t in h then h[t] else []
  }

  /** `register_handler`. */
  function Register(h: Handlers, t: Target, r: Registration): Handlers {
    h[t := HandlersAt(h, t) + [r]]
  }

  /** `handlers_for`: registration order, exact name or wildcard. */
  function Select(rs: seq<Registration>, name: Name): seq<Handler> {
    if rs == [] then []
    else
      var last := rs[|rs| - 1];
      Select(rs[..|rs| - 1], name) + (if last.name == name || last.name == Any then [last.handler] else [])
  }

  /** The targets something can ever be registered for. */
  predicate Answerable(t: Target) {
    t == WORKFLOW_TARGET || t.kind == Activity || t.kind == Timer || t.kind == ChildWorkflow
  }

  predicate AllAnswerable(m: Machine) {
    && (forall t :: t in m.handlers ==> Answerable(t))
    && (forall f :: 0 <= f < |m.futures| ==> Answerable(m.futures[f].target))
  }

  /** What news and the workflow code that it runs never undo. */
  ghost predicate Extends(m: Machine, m': Machine) {
    && Keeps(m.manager, m'.manager)
    && m.log <= m'.log
    && (AllAnswerable(m) ==> AllAnswerable(m'))
  }

  /** What running workflow code never undoes. */
  ghost predicate Grows(m: Machine, m': Machine) {
    Extends(m, m') && OnlyRequests(m.manager.tracker, m'.manager.tracker)
  }

  // ----- Requests -----

  datatype Reply = Reply(machine: Machine, answer: Answer)

  /** Schedules a decision that is answered through a future. */
  function StartTracked(m: Machine, d: Decision, settled: Name, broken: Name): (r: Reply)
    requires d.ScheduleActivity? || d.StartChildWorkflow? || d.StartTimer?
    ensures Grows(m, r.machine)
  {
    var scheduled := ScheduleDecision(m.manager, d);
    var m1 := m.(manager := scheduled.state);
    if scheduled.result.Err? then Reply(m1, Raised(scheduled.result.error))
    else
      var issued := scheduled.result.value;
      var f := |m.futures|;
      var h := Register(m.handlers, issued.target, Registration(settled, Settle(f)));
      var h' := Register(h, issued.target, Registration(broken, Break(f)));
      Reply(
        m1.(handlers := h', futures := m.futures + [Future(issued.target, issued.cancelationId, [], Pending)]),
        Handle(f))
  }

  /** Schedules a decision that nobody waits for. */
  function StartPlain(m: Machine, d: Decision): (r: Reply)
    requires !d.RecordMarker?
    ensures Grows(m, r.machine)
  {
    var scheduled := ScheduleDecision(m.manager, d);
    Reply(m.(manager := scheduled.state), if scheduled.result.Ok? then Done else Raised(scheduled.result.error))
  }

  /** `Future#cancel` and `Context#cancel`. */
  function CancelTracked(m: Machine, f: Future): (r: Reply)
    ensures Grows(m, r.machine)
  {
    if !f.status.Pending? then Reply(m, Flag(false))
    else if f.target.kind == Activity then StartPlain(m, RequestActivityCancellation(f.cancelationId))
    else if f.target.kind == Timer then StartPlain(m, CancelTimer(f.cancelationId))
    else Reply(m, Raised(CannotCancel))
  }

  /** `Future#done`: a finished future is answered with its status, and the code itself goes on with the block. */
  function AddCallback(m: Machine, f: nat): (r: Reply)
    requires f < |m.futures|
    ensures Grows(m, r.machine)
  {
    var future := m.futures[f];
    if !future.status.Pending? then Reply(m, Observed(future.status))
    else
      Reply(
        m.(futures := m.futures[f := future.(callbacks := future.callbacks + [m.blocks])], blocks := m.blocks + 1),
        Registered(m.blocks))
  }

  /** `Context#on_signal`. */
  function Listen(m: Machine): (r: Reply)
    ensures Grows(m, r.machine)
  {
    var handler := Registration(OnSignaled, SignalBlock(m.blocks));
    Reply(m.(handlers := Register(m.handlers, WORKFLOW_TARGET, handler), blocks := m.blocks + 1), Registered(m.blocks))
  }

  /** A decision answered through a future, and the two events that future listens for. */
  datatype Tracked = Tracked(decision: Decision, settled: Name, broken: Name)

  predicate StartsTracked(r: Request) {
    r.ExecuteActivity? || r.ExecuteWorkflow? || r.SetTimer?
  }

  function TrackedFor(r: Request): (t: Tracked)
    requires StartsTracked(r)
    ensures t.decision.ScheduleActivity? || t.decision.StartChildWorkflow? || t.decision.StartTimer?
  {
    match r
    case ExecuteActivity(id, t, i) => Tracked(ScheduleActivity(id, t, i), OnCompleted, OnFailed)
    case ExecuteWorkflow(id, t, i) => Tracked(StartChildWorkflow(id, t, i), OnCompleted, OnFailed)
    case SetTimer(t, id) => Tracked(StartTimer(t, id), OnFired, OnCanceled)
  }

  predicate StartsPlain(r: Request) {
    r.CancelActivityById? || r.CancelTimerById? || r.Complete? || r.Fail?
  }

  function PlainFor(r: Request): (d: Decision)
    requires StartsPlain(r)
    ensures !d.RecordMarker?
  {
    match r
    case CancelActivityById(id) => RequestActivityCancellation(id)
    case CancelTimerById(id) => CancelTimer(id)
    case Complete(v) => CompleteWorkflow(v)
    case Fail(reason, details) => FailWorkflow(reason, details)
  }

  /** One answered request. Waiting for an unfinished future and ending the fiber are not answered here. */
  function Perform(env: Env, m: Machine, r: Request): (reply: Reply)
    ensures Grows(m, reply.machine)
  {
    if StartsTracked(r) then StartTracked(m, TrackedFor(r).decision, TrackedFor(r).settled, TrackedFor(r).broken)
    else if StartsPlain(r) then StartPlain(m, PlainFor(r))
    else if r.DrawSideEffect? then
      var o := PerformSideEffect(m.manager, env.oracle(m.manager.lastEventId));
      Reply(m.(manager := o.state), if o.result.Ok? then Drawn(o.result.value) else Raised(o.result.error))
    else if r.HasRelease? then
      var o := CheckRelease(m.manager, r.name);
      Reply(m.(manager := o.state), if o.result.Ok? then Flag(o.result.value) else Raised(o.result.error))
    else if r.Now? then Reply(m, Time(m.manager.localTime))
    else if r.OnSignal? then Listen(m)
    else if r.Wait? || r.Inspect? || r.OnDone? || r.CancelFuture? then AskFuture(m, r)
    else Reply(m, Done)
  }

  /** Requests about a future that the code holds. */
  function AskFuture(m: Machine, r: Request): (reply: Reply)
    requires r.Wait? || r.Inspect? || r.OnDone? || r.CancelFuture?
    ensures Grows(m, reply.machine)
  {
    if r.future >= |m.futures| then Reply(m, Raised(BadReference))
    else if r.OnDone? then AddCallback(m, r.future)
    else if r.CancelFuture? then CancelTracked(m, m.futures[r.future])
    else Reply(m, Observed(m.futures[r.future].status))
  }

  /** A fiber that asks to wait for an unfinished future stops there. */
  predicate MustPark(m: Machine, r: Request) {
    r.Wait? && r.future < |m.futures| && m.futures[r.future].status.Pending?
  }

  /** `wait_for`: a wildcard handler on the future's target will resume the fiber. */
  function Park(m: Machine, fiber: nat, root: bool, f: nat): (m': Machine)
    requires f < |m.futures|
    ensures Grows(m, m')
  {
    var t := m.futures[f].target;
    m.(handlers := Register(m.handlers, t, Registration(Any, Wake(f, fiber))),
       fibers := if fiber < |m.fibers| then m.fibers[fiber := Parked(root, f)] else m.fibers)
  }

  /** `execute_in_context` after the workflow returns: complete, and when completing raises, fail. */
  function FinishRoot(m: Machine, r: Request): Result<Machine>
    requires r.Return? || r.Raise?
  {
    if r.Raise? then FailRoot(m, r.reason, r.details)
    else
      var completed := ScheduleDecision(m.manager, CompleteWorkflow(r.result));
      var m1 := m.(manager := completed.state);
      if completed.result.Ok? then Ok(m1) else FailRoot(m1, "Error", Null)
  }

  function FailRoot(m: Machine, reason: string, details: Value): Result<Machine> {
    var failed := ScheduleDecision(m.manager, FailWorkflow(reason, details));
    if failed.result.Ok? then Ok(m.(manager := failed.state)) else Err(failed.result.error)
  }

  /** The end of a fiber: only the root fiber turns a return or a raise into a decision. */
  function Finish(m: Machine, root: bool, r: Request): Result<Machine>
    requires r.Return? || r.Raise?
  {
    if root then FinishRoot(m, r)
    else if r.Return? then Ok(m)
    else Err(Uncaught(r.reason, r.details))
  }

  /** Runs a fiber until it parks, ends or raises. */
  function Run(env: Env, m: Machine, fiber: nat, root: bool, steps: nat): Result<Machine>
    decreases steps
  {
    if steps == 0 then Err(Hung)
    else
      var r := env.code(fiber, m.log);
      if r.Return? || r.Raise? then Finish(m, root, r)
      else if MustPark(m, r) then Ok(Park(m, fiber, root, r.future))
      else
        var reply := Perform(env, m, r);
        Run(env, Logged(reply.machine, Answered(fiber, r, reply.answer)), fiber, root, steps - 1)
  }

  function Logged(m: Machine, e: LogEntry): Machine {
    m.(log := m.log + [e])
  }

  /** One step of a fiber. */
  lemma RunUnfolds(env: Env, m: Machine, fiber: nat, root: bool, steps: nat)
    ensures
      var r := env.code(fiber, m.log);
      Run(env, m, fiber, root, steps)
      == if steps == 0 then Err(Hung)
         else if r.Return? || r.Raise? then Finish(m, root, r)
         else if MustPark(m, r) then Ok(Park(m, fiber, root, r.future))
         else
           Run(env, Logged(Perform(env, m, r).machine, Answered(fiber, r, Perform(env, m, r).answer)), fiber, root,
               steps - 1)
  {
    hide Perform, Park, Finish;
  }

  /** `Fiber.new { ... }.resume`. */
  function Launch(env: Env, m: Machine, root: bool, e: LogEntry): Result<Machine> {
    Run(env, Logged(m.(fibers := m.fibers + [NotParked]), e), |m.fibers|, root, env.budget)
  }

  /** `future.callbacks.each`. */
  function RunCallbacks(env: Env, m: Machine, blocks: seq<nat>, v: Value): Result<Machine> {
    if blocks == [] then Ok(m)
    else
      var m1 :- RunCallbacks(env, m, blocks[..|blocks| - 1], v);
      Launch(env, m1, false, Spawned(|m1.fibers|, blocks[|blocks| - 1], Payload("", v)))
  }

  /** The executor once a future has its outcome, before callbacks and waiters run. */
  function WithStatus(m: Machine, f: nat, status: Status): Machine
    requires f < |m.futures|
  {
    m.(futures := m.futures[f := m.futures[f].(status := status)])
  }

  /** `Future#set` followed by the callbacks. */
  function SettleFuture(env: Env, m: Machine, f: nat, v: Value): Result<Machine>
    requires f < |m.futures|
  {
    if m.futures[f].status.Broken? then Err(FutureConflict)
    else RunCallbacks(env, WithStatus(m, f, Ready(v)), m.futures[f].callbacks, v)
  }

  /** `Future#fail`. */
  function BreakFuture(m: Machine, f: nat, p: Payload): Result<Machine>
    requires f < |m.futures|
  {
    if m.futures[f].status.Ready? then Err(FutureConflict)
    else Ok(WithStatus(m, f, Broken(p.text, p.value)))
  }

  /** The handler that `wait_for` registers: resume the fiber wherever it is parked now, if the future has finished. */
  function WakeFiber(env: Env, m: Machine, f: nat, fiber: nat): Result<Machine>
    requires f < |m.futures|
  {
    if m.futures[f].status.Pending? then Ok(m)
    else if fiber >= |m.fibers| || m.fibers[fiber].NotParked? then Err(DeadFiber)
    else
      var Parked(root, g) := m.fibers[fiber];
      if g >= |m.futures| then Err(BadReference)
      else
        var resumed := m.(fibers := m.fibers[fiber := NotParked]);
        Run(env, Logged(resumed, Answered(fiber, Wait(g), Observed(m.futures[g].status))), fiber, root, env.budget)
  }

  function Call(env: Env, m: Machine, h: Handler, p: Payload): Result<Machine> {
    match h
    case Begin => Launch(env, m, true, Began(|m.fibers|, p.value))
    case SignalBlock(b) => Launch(env, m, false, Spawned(|m.fibers|, b, p))
    case Settle(f) => if f < |m.futures| then SettleFuture(env, m, f, p.value) else Err(BadReference)
    case Break(f) => if f < |m.futures| then BreakFuture(m, f, p) else Err(BadReference)
    case Wake(f, fiber) => if f < |m.futures| then WakeFiber(env, m, f, fiber) else Err(BadReference)
  }

  /** `Dispatcher#dispatch` over the snapshot of matching handlers. */
  function CallAll(env: Env, m: Machine, hs: seq<Handler>, p: Payload): Result<Machine> {
    if hs == [] then Ok(m)
    else
      var m1 :- CallAll(env, m, hs[..|hs| - 1], p);
      Call(env, m1, hs[|hs| - 1], p)
  }

  // ----- Events -----

  datatype Notice = Notice(target: Target, name: Name, payload: Payload)

  /** What `apply_event` dispatches for an event, if anything. */
  function NoticeOf(e: Event): Option<Notice> {
    match e.kind
    case WorkflowExecutionStarted(input) => Some(Notice(WORKFLOW_TARGET, OnStarted, Payload("", input)))
    case ActivityTaskCompleted(_, v) => Some(Notice(e.Target(), OnCompleted, Payload("", v)))
    case ActivityTaskFailed(_, r, d) => Some(Notice(e.Target(), OnFailed, Payload(r, d)))
    case ActivityTaskTimedOut(_, t) => Some(Notice(e.Target(), OnFailed, TimeoutPayload(t)))
    case RequestCancelActivityTaskFailed(c) => Some(Notice(e.Target(), OnFailed, Payload(c, Null)))
    case ActivityTaskCanceled(_, d) => Some(Notice(e.Target(), OnFailed, Payload("CANCELLED", d)))
    case TimerFired(_) => Some(Notice(e.Target(), OnFired, Payload("", Null)))
    case TimerCanceled => Some(Notice(e.Target(), OnCanceled, Payload("", Null)))
    case WorkflowExecutionSignaled(s, v) => Some(Notice(e.Target(), OnSignaled, Payload(s, v)))
    case StartChildWorkflowExecutionFailed(_, c) => Some(Notice(e.Target(), OnFailed, Payload("StandardError", c)))
    case ChildWorkflowExecutionCompleted(_, v) => Some(Notice(e.Target(), OnCompleted, Payload("", v)))
    case ChildWorkflowExecutionFailed(_, r, d) => Some(Notice(e.Target(), OnFailed, Payload(r, d)))
    case ChildWorkflowExecutionCanceled(_, d) => Some(Notice(e.Target(), OnFailed, Payload("CANCELLED", d)))
    case ChildWorkflowExecutionTimedOut(_, t) => Some(Notice(e.Target(), OnFailed, TimeoutPayload(t)))
    case _ => None
  }

  function TimeoutPayload(t: string): Payload {
    Payload("Cadence::TimeoutError", Text("Timeout type: " + t))
  }

  function Announce(env: Env, m: Machine, n: Notice): Result<Machine> {
    CallAll(env, m, Select(HandlersAt(m.handlers, n.target), n.name), n.payload)
  }

  /** The executor once the state manager has absorbed an event, before anything is dispatched. */
  function Absorbed(m: Machine, e: Event): Machine
    requires Absorb(m.manager, e).Ok?
  {
    m.(manager := Absorb(m.manager, e).value)
  }

  /** `apply_event`. */
  function ApplyEvent(env: Env, m: Machine, e: Event): Result<Machine> {
    var manager :- Absorb(m.manager, e);
    var m1 := m.(manager := manager);
    var notice := NoticeOf(e);
    if notice.Some? then Announce(env, m1, notice.value) else Ok(m1)
  }

  function ApplyEvents(env: Env, m: Machine, es: seq<Event>): Result<Machine> {
    if es == [] then Ok(m)
    else
      var m1 :- ApplyEvents(env, m, es[..|es| - 1]);
      ApplyEvent(env, m1, es[|es| - 1])
  }

  /** The three fields that `apply` sets before it looks at any event. */
  function Entered(m: Machine, w: WindowState): Machine {
    m.(manager := m.manager.(replay := w.replay, localTime := w.localTime, lastEventId := w.lastEventId))
  }

  /** `StateManager#apply`: markers first, then the other events. */
  function ApplyWindow(env: Env, m: Machine, w: WindowState): Result<Machine> {
    var m1 :- ApplyEvents(env, Entered(m, w), w.markers);
    ApplyEvents(env, m1, w.events)
  }

  function ApplyWindows(env: Env, m: Machine, segments: seq<seq<Event>>): Result<Machine> {
    if segments == [] then Ok(m)
    else
      var m1 :- ApplyWindows(env, m, segments[..|segments| - 1]);
      ApplyWindow(env, m1, Collect(segments[|segments| - 1]))
  }

  /** `Executor#run`: a fresh executor over a whole history. */
  function Execute(env: Env, history: seq<Event>): Result<Machine> {
    ApplyWindows(env, FRESH_MACHINE, Split(history))
  }
}
