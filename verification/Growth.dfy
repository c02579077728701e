/** What no amount of workflow code can undo: decisions and answers only accumulate while code runs, and code that is
    running live never trips the determinism check. */
module Growth {
  import opened Base
  import opened Events
  import opened StateManagers
  import opened Engine

  ghost predicate GrowsOk(m: Machine, r: Result<Machine>) {
    match r
    case Ok(m') => Grows(m, m')
    case Err(e) => e != NonDeterministicWorkflow
  }

  ghost predicate ExtendsOk(m: Machine, r: Result<Machine>) {
    match r
    case Ok(m') => Extends(m, m')
    case Err(e) => e != NonDeterministicWorkflow
  }

  lemma FinishGrows(m: Machine, root: bool, r: Request)
    requires r.Return? || r.Raise?
    ensures GrowsOk(m, Finish(m, root, r))
  {
  }

  lemma {:induction false} RunGrows(env: Env, m: Machine, fiber: nat, root: bool, steps: nat)
    ensures GrowsOk(m, Run(env, m, fiber, root, steps))
    decreases steps
  {
    hide Perform, Keeps;
    if steps > 0 {
      var r := env.code(fiber, m.log);
      if r.Return? || r.Raise? {
        FinishGrows(m, root, r);
      } else if !MustPark(m, r) {
        var reply := Perform(env, m, r);
        var next := Logged(reply.machine, Answered(fiber, r, reply.answer));
        RunGrows(env, next, fiber, root, steps - 1);
        var last := Run(env, next, fiber, root, steps - 1);
        if last.Ok? {
          KeepsTransitive(m.manager, next.manager, last.value.manager);
        }
      }
    }
  }

  lemma LaunchGrows(env: Env, m: Machine, root: bool, e: LogEntry)
    ensures GrowsOk(m, Launch(env, m, root, e))
  {
    RunGrows(env, Logged(m.(fibers := m.fibers + [NotParked]), e), |m.fibers|, root, env.budget);
  }

  lemma {:induction false} RunCallbacksGrows(env: Env, m: Machine, blocks: seq<nat>, v: Value)
    ensures GrowsOk(m, RunCallbacks(env, m, blocks, v))
  {
    if blocks != [] {
      RunCallbacksGrows(env, m, blocks[..|blocks| - 1], v);
      var r := RunCallbacks(env, m, blocks[..|blocks| - 1], v);
      if r.Ok? {
        LaunchGrows(env, r.value, false, Spawned(|r.value.fibers|, blocks[|blocks| - 1], Payload("", v)));
      }
    }
  }

  lemma CallGrows(env: Env, m: Machine, h: Handler, p: Payload)
    ensures GrowsOk(m, Call(env, m, h, p))
  {
    match h
    case Begin => LaunchGrows(env, m, true, Began(|m.fibers|, p.value));
    case SignalBlock(b) => LaunchGrows(env, m, false, Spawned(|m.fibers|, b, p));
    case Settle(f) =>
      if f < |m.futures| {
        var m1 := WithStatus(m, f, Ready(p.value));
        RunCallbacksGrows(env, m1, m.futures[f].callbacks, p.value);
      }
    case Break(f) =>
    case Wake(f, fiber) =>
      if f < |m.futures| && fiber < |m.fibers| && m.fibers[fiber].Parked? && m.fibers[fiber].future < |m.futures| {
        var Parked(root, g) := m.fibers[fiber];
        var resumed := m.(fibers := m.fibers[fiber := NotParked]);
        RunGrows(env, Logged(resumed, Answered(fiber, Wait(g), Observed(m.futures[g].status))), fiber, root,
            env.budget);
      }
  }

  lemma {:induction false} CallAllGrows(env: Env, m: Machine, hs: seq<Handler>, p: Payload)
    ensures GrowsOk(m, CallAll(env, m, hs, p))
  {
    if hs != [] {
      CallAllGrows(env, m, hs[..|hs| - 1], p);
      var r := CallAll(env, m, hs[..|hs| - 1], p);
      if r.Ok? {
        CallGrows(env, r.value, hs[|hs| - 1], p);
      }
    }
  }

  /** Only command events take anything out of the decision list. */
  lemma ApplyEventGrows(env: Env, m: Machine, e: Event)
    requires !e.kind.Discards() && !e.kind.MarkerRecorded?
    ensures ExtendsOk(m, ApplyEvent(env, m, e))
  {
    var absorbed := Absorb(m.manager, e);
    var notice := NoticeOf(e);
    if absorbed.Ok? && notice.Some? {
      var m1 := m.(manager := absorbed.value);
      var n := notice.value;
      CallAllGrows(env, m1, Select(HandlersAt(m1.handlers, n.target), n.name), n.payload);
    }
  }
}
