/** What the context answers to each request of the workflow code. */
module Requests {
  import opened Base
  import opened Decisions
  import opened StateManagers
  import opened Engine

  /** Why nothing can be scheduled now: without an id base no event id can be predicted, and once the workflow is being
      completed or failed nothing may follow. */
  function Refusal(m: ManagerState): Option<Error> {
    if m.lastEventId.None? then Some(NilEventId)
    else if m.decisions != [] && m.decisions[|m.decisions| - 1].decision.Terminal() then Some(WorkflowAlreadyCompleting)
    else None
  }

  function UnlessRefused(m: ManagerState, a: Answer): Answer {
    var refusal := Refusal(m);
    if refusal.Some? then Raised(refusal.value) else a
  }

  /** The answer that the code is promised, from what it asked before: futures and blocks are numbered as they come,
      a future tells its outcome, and what is to be scheduled is refused or not. */
  function Promised(env: Env, m: Machine, r: Request): Answer {
    var manager := m.manager;
    match r
    case ExecuteActivity(_, _, _) => UnlessRefused(manager, Handle(|m.futures|))
    case ExecuteWorkflow(_, _, _) => UnlessRefused(manager, Handle(|m.futures|))
    case SetTimer(_, _) => UnlessRefused(manager, Handle(|m.futures|))
    case CancelActivityById(_) => UnlessRefused(manager, Done)
    case CancelTimerById(_) => UnlessRefused(manager, Done)
    case Complete(_) => UnlessRefused(manager, Done)
    case Fail(_, _) => UnlessRefused(manager, Done)
    case DrawSideEffect =>
      if manager.sideEffects != [] then Drawn(manager.sideEffects[0].value)
      else UnlessRefused(manager, Drawn(env.oracle(manager.lastEventId)))
    case HasRelease(name) =>
      if Text(name) in manager.releases then Flag(manager.releases[Text(name)])
      else if manager.replay then Flag(false)
      else UnlessRefused(manager, Flag(true))
    case Now => Time(manager.localTime)
    case OnSignal => Registered(m.blocks)
    case OnDone(f) => if f < |m.futures| && m.futures[f].status.Pending? then Registered(m.blocks) else Outcome(m, f)
    case Wait(f) => Outcome(m, f)
    case Inspect(f) => Outcome(m, f)
    case CancelFuture(f) =>
      if f >= |m.futures| then Raised(BadReference)
      else if !m.futures[f].status.Pending? then Flag(false)
      else if m.futures[f].target.kind in {Activity, Timer} then UnlessRefused(manager, Done)
      else Raised(CannotCancel)
    case _ => Done
  }

  function Outcome(m: Machine, f: nat): Answer {
    if f < |m.futures| then Observed(m.futures[f].status) else Raised(BadReference)
  }

  lemma RefusalIsExact(m: ManagerState, d: Decision)
    ensures
      match Refusal(m)
      case Some(error) => ScheduleDecision(m, d).result == Err(error)
      case None => ScheduleDecision(m, d).result.Ok?
  {
  }

  lemma ScheduledAnswers(env: Env, m: Machine, r: Request)
    requires StartsTracked(r) || StartsPlain(r)
    ensures Perform(env, m, r).answer == Promised(env, m, r)
  {
    RefusalIsExact(m.manager, if StartsTracked(r) then TrackedFor(r).decision else PlainFor(r));
    hide ScheduleDecision, Register, Refusal, Keeps, OnlyRequests, AllAnswerable;
  }

  lemma MarkerAnswers(env: Env, m: Machine, r: Request)
    requires r.DrawSideEffect? || r.HasRelease?
    ensures Perform(env, m, r).answer == Promised(env, m, r)
  {
    if r.HasRelease? {
      RefusalIsExact(m.manager.(releases := m.manager.releases[Text(r.name) := true]),
                     RecordMarker(RELEASE_MARKER, Text(r.name)));
    } else {
      RefusalIsExact(m.manager, RecordMarker(SIDE_EFFECT_MARKER, env.oracle(m.manager.lastEventId)));
    }
    hide ScheduleDecision, Keeps, OnlyRequests, AllAnswerable;
  }

  lemma FutureAnswers(env: Env, m: Machine, r: Request)
    requires r.Wait? || r.Inspect? || r.OnDone? || r.CancelFuture?
    ensures Perform(env, m, r).answer == Promised(env, m, r)
  {
    if r.CancelFuture? && r.future < |m.futures| {
      RefusalIsExact(m.manager, RequestActivityCancellation(m.futures[r.future].cancelationId));
      RefusalIsExact(m.manager, CancelTimer(m.futures[r.future].cancelationId));
    }
    hide ScheduleDecision, Refusal, Register, Keeps, OnlyRequests, AllAnswerable;
  }

  lemma OtherAnswers(env: Env, m: Machine, r: Request)
    requires !StartsTracked(r) && !StartsPlain(r) && !r.DrawSideEffect? && !r.HasRelease?
    requires !r.Wait? && !r.Inspect? && !r.OnDone? && !r.CancelFuture?
    ensures Perform(env, m, r).answer == Promised(env, m, r)
  {
    hide Register, Keeps, OnlyRequests, AllAnswerable;
  }

  /** Every request is answered as promised. */
  lemma AnsweredAsPromised(env: Env, m: Machine, r: Request)
    ensures Perform(env, m, r).answer == Promised(env, m, r)
  {
    hide Perform, Promised;
    if StartsTracked(r) || StartsPlain(r) {
      ScheduledAnswers(env, m, r);
    } else if r.DrawSideEffect? || r.HasRelease? {
      MarkerAnswers(env, m, r);
    } else if r.Wait? || r.Inspect? || r.OnDone? || r.CancelFuture? {
      FutureAnswers(env, m, r);
    } else {
      OtherAnswers(env, m, r);
    }
  }

  /** How a fiber ends: the root completes the workflow with what it returned or fails it with what it raised, each
      refused as any other decision; in any other fiber a return is the end and a raise is nobody's to rescue. */
  lemma EndsAsPromised(m: Machine, root: bool, r: Request)
    requires r.Return? || r.Raise?
    ensures
      var ended := Finish(m, root, r);
      if root then (if Refusal(m.manager).Some? then ended == Err(Refusal(m.manager).value) else ended.Ok?)
      else ended == if r.Return? then Ok(m) else Err(Uncaught(r.reason, r.details))
  {
  }
}
