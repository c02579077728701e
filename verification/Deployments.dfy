/** Deploying a new release check: a workflow that is already running goes on as before. The runs that the old code
    recorded are replayed by the new code, every check in them answers false, and the state is the same. */
module Deployments {
  import opened Base
  import opened Events
  import opened Histories
  import opened StateManagers
  import opened Decisions
  import opened Engine
  import opened Growth
  import opened Runs
  import opened Checks
  import opened Erasure
  import opened Stickiness

  function FalseCheck(fiber: nat, name: string): LogEntry {
    Answered(fiber, HasRelease(name), Flag(false))
  }

  /** After at most `k` false answers in a row the fiber that was last heard of does something else. */
  predicate AsksWithin(code: Code, log: seq<LogEntry>, name: string, k: nat)
    requires log != []
    decreases k
  {
    || !Asks(code, log, name)
    || (k > 0 && AsksWithin(code, log + [FalseCheck(log[|log| - 1].fiber, name)], name, k - 1))
  }

  /** Told false, the code checks the release at most `k` times in a row, wherever it has seen a part of `final`. */
  ghost predicate AsksAtMost(code: Code, name: string, k: nat, final: seq<LogEntry>) {
    forall log :: Reaches(code, log, name, final) ==> AsksWithin(code, log, name, k)
  }

  /** A log of the code, with all checks answered false, that has come no further than `final` apart from them. */
  ghost predicate Reaches(code: Code, log: seq<LogEntry>, name: string, final: seq<LogEntry>) {
    && log != [] && Faithful(code, log, name) && AllAnswered(log, name, false)
    && Strip(log, name) <= final
  }

  /** `o` runs the old code, `n` the new one, whose checks of the release have the old code as their false branch. */
  ghost predicate Deploying(o: Env, n: Env, name: string, k: nat, final: seq<LogEntry>) {
    && o.oracle == n.oracle && Suffices(k, o.budget, n.budget)
    && CleanedUp(n.code, o.code, name, false) && AsksAtMost(n.code, name, k, final)
  }

  /** The new code may have asked, and then the release is false. */
  predicate ReleasesMatch(r: Releases, r': Releases, name: string) {
    Text(name) !in r && (r' == r || r' == r[Text(name) := false])
  }

  /** Two executors that differ in the log and in the release alone. */
  predicate Alike(m: Machine, m': Machine, name: string) {
    && m' == m.(log := m'.log, manager := m.manager.(releases := m'.manager.releases))
    && ReleasesMatch(m.manager.releases, m'.manager.releases, name)
  }

  /** The code was told something about the release. */
  predicate Known(m: Machine, name: string) { Text(name) in m.manager.releases }

  predicate Asked(log: seq<LogEntry>, name: string) {
    exists i :: 0 <= i < |log| && IsCheck(log[i], name)
  }

  /** The executor of the new code: the same as the old one's in every respect, except for checks answered false. */
  ghost predicate Deployed(code: Code, m: Machine, m': Machine, name: string) {
    && Alike(m, m', name)
    && Strip(m'.log, name) == m.log
    && AllAnswered(m'.log, name, false)
    && Faithful(code, m'.log, name)
    && (Known(m', name) <==> Asked(m'.log, name))
  }

  ghost predicate Resting(code: Code, m: Machine, m': Machine, name: string) {
    Deployed(code, m, m', name) && !Asks(code, m'.log, name)
  }

  /** An executor of the old code on the way to the log `final`, the release never having been marked. */
  predicate Unmarked(m: Machine, name: string, final: seq<LogEntry>) {
    Text(name) !in m.manager.releases && m.log <= final
  }

  /** A run of the old code in which the release never was marked is followed by the run of the new code. */
  ghost predicate Follows(code: Code, r: Result<Machine>, r': Result<Machine>, name: string, final: seq<LogEntry>) {
    r.Ok? && Unmarked(r.value, name, final) ==> r'.Ok? && Resting(code, r.value, r'.value, name)
  }

  // ----- Requests -----

  lemma ScheduleIgnoresReleases(m: ManagerState, releases: Releases, d: Decision)
    ensures
      ScheduleDecision(m.(releases := releases), d)
      == Outcome(ScheduleDecision(m, d).state.(releases := releases), ScheduleDecision(m, d).result)
  {
  }

  lemma CheckIgnoresOthers(m: ManagerState, m': ManagerState, name: string, other: string)
    requires m' == m.(releases := m'.releases) && ReleasesMatch(m.releases, m'.releases, name) && other != name
    ensures
      var o, o' := CheckRelease(m, other), CheckRelease(m', other);
      && o'.result == o.result
      && o'.state == o.state.(releases := o'.state.releases)
      && ReleasesMatch(o.state.releases, o'.state.releases, name)
      && (Text(name) in o'.state.releases <==> Text(name) in m'.releases)
  {
    var key, mine := Text(other), Text(name);
    if key !in m.releases && !m.replay {
      var r, r' := m.releases[key := true], m'.releases[key := true];
      ScheduleIgnoresReleases(m.(releases := r), r', RecordMarker(RELEASE_MARKER, key));
      assert m'.releases == m.releases[mine := false] ==> r' == r[mine := false];
      hide ScheduleDecision;
      ScheduleKeepsReleases(m.(releases := r), RecordMarker(RELEASE_MARKER, key));
      ScheduleKeepsReleases(m'.(releases := r'), RecordMarker(RELEASE_MARKER, key));
      assert m'.(releases := r') == m.(releases := r).(releases := r');
    } else if key !in m.releases {
      assert m'.releases == m.releases[mine := false] ==>
        m'.releases[key := false] == m.releases[key := false][mine := false];
    }
  }

  ghost predicate AlikeReplies(m: Machine, reply: Reply, m': Machine, reply': Reply, name: string) {
    && reply'.answer == reply.answer
    && reply.machine.log == m.log && reply'.machine.log == m'.log
    && Alike(reply.machine, reply'.machine, name)
    && (Known(reply'.machine, name) <==> Known(m', name))
  }

  lemma TrackedAlike(m: Machine, m': Machine, t: Tracked, name: string)
    requires Alike(m, m', name)
    requires t.decision.ScheduleActivity? || t.decision.StartChildWorkflow? || t.decision.StartTimer?
    ensures
      AlikeReplies(m, StartTracked(m, t.decision, t.settled, t.broken), m',
                   StartTracked(m', t.decision, t.settled, t.broken), name)
  {
    ScheduleIgnoresReleases(m.manager, m'.manager.releases, t.decision);
    ScheduleKeepsReleases(m.manager, t.decision);
    hide ScheduleDecision, Register;
  }

  lemma PlainAlike(m: Machine, m': Machine, d: Decision, name: string)
    requires Alike(m, m', name) && !d.RecordMarker?
    ensures AlikeReplies(m, StartPlain(m, d), m', StartPlain(m', d), name)
  {
    ScheduleIgnoresReleases(m.manager, m'.manager.releases, d);
    ScheduleKeepsReleases(m.manager, d);
    hide ScheduleDecision;
  }

  lemma FutureAlike(m: Machine, m': Machine, r: Request, name: string)
    requires Alike(m, m', name) && (r.Wait? || r.Inspect? || r.OnDone? || r.CancelFuture?)
    ensures AlikeReplies(m, AskFuture(m, r), m', AskFuture(m', r), name)
  {
    hide StartPlain, Keeps, AllAnswerable, OnlyRequests, Register;
    if r.CancelFuture? && r.future < |m.futures| {
      var f := m.futures[r.future];
      PlainAlike(m, m', RequestActivityCancellation(f.cancelationId), name);
      PlainAlike(m, m', CancelTimer(f.cancelationId), name);
    }
  }

  lemma SideEffectAlike(o: Env, n: Env, m: Machine, m': Machine, name: string)
    requires Alike(m, m', name) && o.oracle == n.oracle
    ensures AlikeReplies(m, Perform(o, m, DrawSideEffect), m', Perform(n, m', DrawSideEffect), name)
  {
    var d := RecordMarker(SIDE_EFFECT_MARKER, o.oracle(m.manager.lastEventId));
    ScheduleIgnoresReleases(m.manager, m'.manager.releases, d);
    ScheduleKeepsReleases(m.manager, d);
    hide ScheduleDecision;
  }

  lemma CheckAlike(o: Env, n: Env, m: Machine, m': Machine, other: string, name: string)
    requires Alike(m, m', name) && other != name
    ensures AlikeReplies(m, Perform(o, m, HasRelease(other)), m', Perform(n, m', HasRelease(other)), name)
  {
    CheckIgnoresOthers(m.manager, m'.manager, name, other);
    hide CheckRelease;
  }

  /** Every other request is answered alike. */
  lemma PerformAlike(o: Env, n: Env, m: Machine, m': Machine, r: Request, name: string)
    requires Alike(m, m', name) && o.oracle == n.oracle && r != HasRelease(name)
    ensures AlikeReplies(m, Perform(o, m, r), m', Perform(n, m', r), name)
  {
    hide StartTracked, StartPlain, AskFuture, PerformSideEffect, CheckRelease;
    if StartsTracked(r) {
      TrackedAlike(m, m', TrackedFor(r), name);
    } else if StartsPlain(r) {
      PlainAlike(m, m', PlainFor(r), name);
    } else if r.DrawSideEffect? {
      SideEffectAlike(o, n, m, m', name);
    } else if r.HasRelease? {
      CheckAlike(o, n, m, m', r.name, name);
    } else if r.Wait? || r.Inspect? || r.OnDone? || r.CancelFuture? {
      FutureAlike(m, m', r, name);
    }
  }

  lemma FinishAlike(m: Machine, m': Machine, root: bool, r: Request, name: string)
    requires Alike(m, m', name) && (r.Return? || r.Raise?) && Finish(m, root, r).Ok?
    ensures Finish(m', root, r).Ok? && Alike(Finish(m, root, r).value, Finish(m', root, r).value, name)
    ensures Finish(m, root, r).value.log == m.log && Finish(m', root, r).value.log == m'.log
    ensures Known(Finish(m', root, r).value, name) <==> Known(m', name)
  {
    if root {
      var d := if r.Return? then CompleteWorkflow(r.result) else FailWorkflow(r.reason, r.details);
      ScheduleIgnoresReleases(m.manager, m'.manager.releases, d);
      ScheduleKeepsReleases(m.manager, d);
      var m1, m1' := ScheduleDecision(m.manager, d).state, ScheduleDecision(m'.manager, d).state;
      ScheduleIgnoresReleases(m1, m1'.releases, FailWorkflow("Error", Null));
      ScheduleKeepsReleases(m1, FailWorkflow("Error", Null));
      hide ScheduleDecision;
    }
  }

  // ----- Fibers -----

  /** During replay a check of a release that was never marked is false, and changes nothing else. */
  lemma CheckIsFalse(n: Env, m: Machine, m': Machine, name: string)
    requires Alike(m, m', name) && m.manager.replay
    ensures
      var reply := Perform(n, m', HasRelease(name));
      && reply.answer == Flag(false) && reply.machine.log == m'.log
      && Alike(m, reply.machine, name) && Known(reply.machine, name)
  {
  }

  /** The running fiber's checks, one after the other, until it goes on with something else. */
  lemma {:induction false} AskThrough(o: Env, n: Env, m: Machine, m': Machine, fiber: nat, root: bool, steps: nat,
          name: string, k: nat) returns (asked: Machine, used: nat)
    requires Deployed(n.code, m, m', name) && Running(n.code, m'.log, fiber, name) && m.manager.replay
    requires m'.log != [] && AsksWithin(n.code, m'.log, name, k) && k < steps
    ensures used <= k
    ensures Run(n, m', fiber, root, steps) == Run(n, asked, fiber, root, steps - used)
    ensures Resting(n.code, m, asked, name) && Running(n.code, asked.log, fiber, name)
    decreases k
  {
    hide Run, Perform, Faithful, Strip, AllAnswered, Alike, AsksWithin, Asks, Running;
    if !Asks(n.code, m'.log, name) {
      return m', 0;
    }
    hide *;
    var next := OneCheck(n, m, m', fiber, root, steps, name);
    AsksOnce(n.code, m'.log, name, k);
    asked, used := AskThrough(o, n, m, next, fiber, root, steps - 1, name, k - 1);
    used := used + 1;
  }

  lemma AsksOnce(code: Code, log: seq<LogEntry>, name: string, k: nat)
    requires log != [] && Asks(code, log, name) && AsksWithin(code, log, name, k)
    ensures k > 0 && AsksWithin(code, log + [FalseCheck(log[|log| - 1].fiber, name)], name, k - 1)
  {
  }

  lemma OneCheck(n: Env, m: Machine, m': Machine, fiber: nat, root: bool, steps: nat, name: string)
    returns (next: Machine)
    requires Deployed(n.code, m, m', name) && Running(n.code, m'.log, fiber, name) && m.manager.replay
    requires Asks(n.code, m'.log, name) && steps > 0
    ensures next.log == m'.log + [FalseCheck(m'.log[|m'.log| - 1].fiber, name)]
    ensures Run(n, m', fiber, root, steps) == Run(n, next, fiber, root, steps - 1)
    ensures Deployed(n.code, m, next, name) && Running(n.code, next.log, fiber, name)
  {
    CheckIsFalse(n, m, m', name);
    var e := FalseCheck(fiber, name);
    StripSnoc(m'.log, e, name);
    FaithfulSnoc(n.code, m'.log, e, name);
    AllAnsweredSnoc(m'.log, e, name, false);
    AskedSnoc(m'.log, e, name);
    hide Perform, Asked, Faithful, Strip, AllAnswered, Alike;
    next := Logged(Perform(n, m', HasRelease(name)).machine, e);
    AlikeLogged(m, Perform(n, m', HasRelease(name)).machine, e, name);
  }

  lemma AlikeLogged(m: Machine, m': Machine, e: LogEntry, name: string)
    requires Alike(m, m', name)
    ensures Alike(m, Logged(m', e), name)
  {
  }

  /** Once its checks are answered, the new code goes on as the old code does. */
  lemma SameRequest(o: Env, n: Env, m: Machine, m': Machine, fiber: nat, name: string, k: nat, final: seq<LogEntry>)
    requires Deploying(o, n, name, k, final)
    requires Resting(n.code, m, m', name) && Running(n.code, m'.log, fiber, name)
    ensures n.code(fiber, m'.log) == o.code(fiber, m.log) != HasRelease(name)
  {
    hide Strip, Faithful, AllAnswered;
  }

  lemma StillUnmarked(o: Env, m: Machine, fiber: nat, root: bool, steps: nat, name: string, final: seq<LogEntry>)
    requires Run(o, m, fiber, root, steps).Ok? && Unmarked(Run(o, m, fiber, root, steps).value, name, final)
    ensures Unmarked(m, name, final)
  {
    RunConsistent(o, m, fiber, root, steps);
  }

  /** An answered request that is no check leaves the two executors deployed. */
  lemma LoggedDeployed(code: Code, m: Machine, m': Machine, a: Machine, a': Machine, e: LogEntry, name: string)
    requires Resting(code, m, m', name) && Alike(a, a', name) && a.log == m.log && a'.log == m'.log
    requires !IsCheck(e, name) && (Known(a', name) <==> Known(m', name))
    ensures Deployed(code, Logged(a, e), Logged(a', e), name)
    ensures Running(code, Logged(a', e).log, e.fiber, name)
    ensures Logged(a', e).log != [] && Logged(a, e).manager == a.manager
  {
    StripSnoc(m'.log, e, name);
    FaithfulSnoc(code, m'.log, e, name);
    AllAnsweredSnoc(m'.log, e, name, false);
    AskedSnoc(m'.log, e, name);
    hide Faithful, Strip, AllAnswered, Asked;
  }

  lemma AskedSnoc(log: seq<LogEntry>, e: LogEntry, name: string)
    ensures Asked(log + [e], name) <==> Asked(log, name) || IsCheck(e, name)
  {
    assert (log + [e])[|log|] == e;
    assert forall i :: 0 <= i < |log| ==> (log + [e])[i] == log[i];
  }

  lemma StopDeployed(code: Code, m: Machine, m': Machine, a: Machine, a': Machine, name: string)
    requires Resting(code, m, m', name) && Alike(a, a', name) && a.log == m.log && a'.log == m'.log
    requires Known(a', name) <==> Known(m', name)
    ensures Resting(code, a, a', name)
  {
  }

  lemma ParkAlike(m: Machine, m': Machine, fiber: nat, root: bool, f: nat, name: string)
    requires Alike(m, m', name) && f < |m.futures|
    ensures Alike(Park(m, fiber, root, f), Park(m', fiber, root, f), name)
    ensures Park(m, fiber, root, f).log == m.log && Park(m', fiber, root, f).log == m'.log
    ensures Known(Park(m', fiber, root, f), name) <==> Known(m', name)
  {
    hide Register;
  }

  /** Each step of the old code may take `k` checks more in the new one. */
  predicate Suffices(k: nat, steps: nat, steps': nat) { steps' >= (k + 1) * steps }

  lemma EnoughSteps(k: nat, steps: nat, steps': nat, used: nat)
    requires steps > 0 && Suffices(k, steps, steps') && used <= k
    ensures k < steps' && Suffices(k, steps - 1, steps' - used - 1)
  {
    assert (k + 1) * steps == (k + 1) * (steps - 1) + (k + 1);
  }

  lemma {:induction false} RunDeployed(o: Env, n: Env, m: Machine, m': Machine, fiber: nat, root: bool, steps: nat,
          steps': nat, name: string, k: nat, final: seq<LogEntry>)
    requires Deploying(o, n, name, k, final) && m.manager.replay && Suffices(k, steps, steps')
    requires Deployed(n.code, m, m', name) && Running(n.code, m'.log, fiber, name) && m'.log != []
    requires Run(o, m, fiber, root, steps).Ok? && Unmarked(Run(o, m, fiber, root, steps).value, name, final)
    ensures Run(n, m', fiber, root, steps').Ok?
    ensures Resting(n.code, Run(o, m, fiber, root, steps).value, Run(n, m', fiber, root, steps').value, name)
    decreases steps, 1
  {
    hide *;
    RunUnfolds(o, m, fiber, root, steps);
    StillUnmarked(o, m, fiber, root, steps, name, final);
    EnoughSteps(k, steps, steps', 0);
    MayAsk(o, n, m, m', name, k, final);
    var asked, used := AskThrough(o, n, m, m', fiber, root, steps', name, k);
    RunUnfolds(n, asked, fiber, root, steps' - used);
    SameRequest(o, n, m, asked, fiber, name, k, final);
    RestingParts(n.code, m, asked, name);
    SameParking(m, asked, o.code(fiber, m.log));
    EnoughSteps(k, steps, steps', used);
    var rest, r := steps' - used, o.code(fiber, m.log);
    if r.Return? || r.Raise? {
      FinishAlike(m, asked, root, r, name);
      StopDeployed(n.code, m, asked, Finish(m, root, r).value, Finish(asked, root, r).value, name);
    } else if MustPark(m, r) {
      ParkAlike(m, asked, fiber, root, r.future, name);
      StopDeployed(n.code, m, asked, Park(m, fiber, root, r.future), Park(asked, fiber, root, r.future), name);
    } else {
      StepDeployed(o, n, m, asked, fiber, root, steps, rest, name, k, final);
    }
  }

  /** One answered request, and the rest of the run. */
  lemma {:induction false} StepDeployed(o: Env, n: Env, m: Machine, m': Machine, fiber: nat, root: bool, steps: nat,
          rest: nat, name: string, k: nat, final: seq<LogEntry>)
    requires Deploying(o, n, name, k, final) && m.manager.replay
    requires steps > 0 && rest > 0 && Suffices(k, steps - 1, rest - 1)
    requires Resting(n.code, m, m', name) && Running(n.code, m'.log, fiber, name)
    requires
      var r := o.code(fiber, m.log);
      && n.code(fiber, m'.log) == r && !r.Return? && !r.Raise? && !MustPark(m, r) && !MustPark(m', r)
      && r != HasRelease(name)
    requires Run(o, m, fiber, root, steps).Ok? && Unmarked(Run(o, m, fiber, root, steps).value, name, final)
    ensures Run(n, m', fiber, root, rest).Ok?
    ensures Resting(n.code, Run(o, m, fiber, root, steps).value, Run(n, m', fiber, root, rest).value, name)
    decreases steps, 0
  {
    hide *;
    SameOracle(o, n, name, k, final);
    RunUnfolds(o, m, fiber, root, steps);
    RunUnfolds(n, m', fiber, root, rest);
    var r := o.code(fiber, m.log);
    var a, a' := Perform(o, m, r), Perform(n, m', r);
    var e := Answered(fiber, r, a.answer);
    RestingParts(n.code, m, m', name);
    PerformAlike(o, n, m, m', r, name);
    NoCheck(fiber, r, a.answer, name);
    RepliesAlike(m, a, m', a', name);
    LoggedDeployed(n.code, m, m', a.machine, a'.machine, e, name);
    StillUnmarked(o, Logged(a.machine, e), fiber, root, steps - 1, name, final);
    PerformKeepsReplay(o, m, r);
    RunDeployed(o, n, Logged(a.machine, e), Logged(a'.machine, e), fiber, root, steps - 1, rest - 1, name, k, final);
  }

  lemma RestingParts(code: Code, m: Machine, m': Machine, name: string)
    requires Resting(code, m, m', name)
    ensures Alike(m, m', name) && m'.futures == m.futures && m'.fibers == m.fibers
  {
  }

  lemma SameOracle(o: Env, n: Env, name: string, k: nat, final: seq<LogEntry>)
    requires Deploying(o, n, name, k, final)
    ensures o.oracle == n.oracle
  {
  }

  lemma MayAsk(o: Env, n: Env, m: Machine, m': Machine, name: string, k: nat, final: seq<LogEntry>)
    requires Deploying(o, n, name, k, final) && Deployed(n.code, m, m', name) && m'.log != [] && m.log <= final
    ensures AsksWithin(n.code, m'.log, name, k)
  {
  }

  lemma SameParking(m: Machine, m': Machine, r: Request)
    requires m'.futures == m.futures
    ensures MustPark(m', r) <==> MustPark(m, r)
    ensures MustPark(m, r) ==> r.Wait? && r.future < |m.futures|
  {
  }

  lemma NoCheck(fiber: nat, r: Request, a: Answer, name: string)
    requires r != HasRelease(name)
    ensures !IsCheck(Answered(fiber, r, a), name)
  {
  }

  lemma RepliesAlike(m: Machine, a: Reply, m': Machine, a': Reply, name: string)
    requires AlikeReplies(m, a, m', a', name)
    ensures a'.answer == a.answer && a.machine.log == m.log && a'.machine.log == m'.log
    ensures Alike(a.machine, a'.machine, name) && (Known(a'.machine, name) <==> Known(m', name))
  {
  }

  lemma PerformKeepsReplay(o: Env, m: Machine, r: Request)
    ensures Perform(o, m, r).machine.manager.replay == m.manager.replay
  {
    hide Perform;
    assert Grows(m, Perform(o, m, r).machine);
  }

  // ----- Handlers -----

  lemma LaunchFollows(o: Env, n: Env, m: Machine, m': Machine, root: bool, e: LogEntry, name: string, k: nat,
          final: seq<LogEntry>)
    requires Deploying(o, n, name, k, final) && Resting(n.code, m, m', name) && m.manager.replay
    requires Starts(root, e, |m.fibers|)
    ensures Follows(n.code, Launch(o, m, root, e), Launch(n, m', root, e), name, final)
  {
    var result := Launch(o, m, root, e);
    if result.Ok? && Unmarked(result.value, name, final) {
      var a, a' := m.(fibers := m.fibers + [NotParked]), m'.(fibers := m'.fibers + [NotParked]);
      assert m'.fibers == m.fibers;
      hide Run, Strip, Faithful, AllAnswered, Resting, Running, CleanedUp, AsksAtMost;
      LoggedDeployed(n.code, m, m', a, a', e, name);
      BudgetSuffices(o, n, name, k, final);
      RunDeployed(o, n, Logged(a, e), Logged(a', e), |m.fibers|, root, o.budget, n.budget, name, k, final);
    }
  }

  lemma BudgetSuffices(o: Env, n: Env, name: string, k: nat, final: seq<LogEntry>)
    requires Deploying(o, n, name, k, final)
    ensures Suffices(k, o.budget, n.budget)
  {
  }

  lemma StatusFollows(code: Code, m: Machine, m': Machine, f: nat, status: Status, name: string)
    requires Resting(code, m, m', name) && f < |m.futures|
    ensures m'.futures == m.futures && Resting(code, WithStatus(m, f, status), WithStatus(m', f, status), name)
  {
  }

  lemma FibersAlike(m: Machine, m': Machine, fibers: seq<Fiber>, name: string)
    requires Alike(m, m', name)
    ensures Alike(m.(fibers := fibers), m'.(fibers := fibers), name)
    ensures Known(m'.(fibers := fibers), name) <==> Known(m', name)
  {
  }

  lemma WakeFollows(o: Env, n: Env, m: Machine, m': Machine, f: nat, fiber: nat, name: string, k: nat,
          final: seq<LogEntry>)
    requires Deploying(o, n, name, k, final) && Resting(n.code, m, m', name) && m.manager.replay && f < |m.futures|
    ensures m'.futures == m.futures
    ensures Follows(n.code, WakeFiber(o, m, f, fiber), WakeFiber(n, m', f, fiber), name, final)
  {
    var result := WakeFiber(o, m, f, fiber);
    RestingParts(n.code, m, m', name);
    if result.Ok? && Unmarked(result.value, name, final) && !m.futures[f].status.Pending? {
      var Parked(root, g) := m.fibers[fiber];
      var e := Answered(fiber, Wait(g), Observed(m.futures[g].status));
      var a, a' := m.(fibers := m.fibers[fiber := NotParked]), m'.(fibers := m'.fibers[fiber := NotParked]);
      hide Run, Strip, Faithful, AllAnswered, Resting, Running, CleanedUp, AsksAtMost, Deploying, Alike;
      FibersAlike(m, m', m.fibers[fiber := NotParked], name);
      LoggedDeployed(n.code, m, m', a, a', e, name);
      BudgetSuffices(o, n, name, k, final);
      RunDeployed(o, n, Logged(a, e), Logged(a', e), fiber, root, o.budget, n.budget, name, k, final);
    }
  }

  /** A later state without the release shows that it was not there before either. */
  lemma UnmarkedBefore(m: Machine, m': Machine, name: string, final: seq<LogEntry>)
    requires Consistent(m, m') && Unmarked(m', name, final)
    ensures Unmarked(m, name, final)
  {
  }

  lemma {:induction false} CallbacksFollow(o: Env, n: Env, m: Machine, m': Machine, blocks: seq<nat>, v: Value,
          name: string, k: nat, final: seq<LogEntry>)
    requires Deploying(o, n, name, k, final) && Resting(n.code, m, m', name) && m.manager.replay
    ensures Follows(n.code, RunCallbacks(o, m, blocks, v), RunCallbacks(n, m', blocks, v), name, final)
    decreases |blocks|
  {
    hide Launch, Deploying, Resting, Unmarked, Consistent, Keeps, AllAnswerable;
    var result := RunCallbacks(o, m, blocks, v);
    if result.Ok? && Unmarked(result.value, name, final) && blocks != [] {
      var front, last := blocks[..|blocks| - 1], blocks[|blocks| - 1];
      var before := RunCallbacks(o, m, front, v).value;
      var e := Spawned(|before.fibers|, last, Payload("", v));
      LaunchConsistent(o, before, false, e);
      UnmarkedBefore(before, result.value, name, final);
      CallbacksFollow(o, n, m, m', front, v, name, k, final);
      RunCallbacksGrows(o, m, front, v);
      KeepsReplay(m, before);
      var before' := RunCallbacks(n, m', front, v).value;
      RestingParts(n.code, before, before', name);
      LaunchFollows(o, n, before, before', false, e, name, k, final);
    }
  }

  lemma CallFollows(o: Env, n: Env, m: Machine, m': Machine, h: Handler, p: Payload, name: string, k: nat,
          final: seq<LogEntry>)
    requires Deploying(o, n, name, k, final) && Resting(n.code, m, m', name) && m.manager.replay
    ensures Follows(n.code, Call(o, m, h, p), Call(n, m', h, p), name, final)
  {
    RestingParts(n.code, m, m', name);
    hide Launch, RunCallbacks, WakeFiber, Deploying, Resting, Unmarked;
    match h
    case Begin => LaunchFollows(o, n, m, m', true, Began(|m.fibers|, p.value), name, k, final);
    case SignalBlock(b) => LaunchFollows(o, n, m, m', false, Spawned(|m.fibers|, b, p), name, k, final);
    case Settle(f) =>
      if f < |m.futures| && !m.futures[f].status.Broken? {
        StatusFollows(n.code, m, m', f, Ready(p.value), name);
        CallbacksFollow(o, n, WithStatus(m, f, Ready(p.value)), WithStatus(m', f, Ready(p.value)),
                        m.futures[f].callbacks, p.value, name, k, final);
      }
    case Break(f) =>
      if f < |m.futures| {
        StatusFollows(n.code, m, m', f, Broken(p.text, p.value), name);
      }
    case Wake(f, fiber) =>
      if f < |m.futures| {
        WakeFollows(o, n, m, m', f, fiber, name, k, final);
      }
  }

  lemma {:induction false} CallAllFollows(o: Env, n: Env, m: Machine, m': Machine, hs: seq<Handler>, p: Payload,
          name: string, k: nat, final: seq<LogEntry>)
    requires Deploying(o, n, name, k, final) && Resting(n.code, m, m', name) && m.manager.replay
    ensures Follows(n.code, CallAll(o, m, hs, p), CallAll(n, m', hs, p), name, final)
    decreases |hs|
  {
    hide Call, Deploying, Resting, Unmarked, Consistent, Keeps, AllAnswerable, Closed;
    var result := CallAll(o, m, hs, p);
    if result.Ok? && Unmarked(result.value, name, final) && hs != [] {
      var front, last := hs[..|hs| - 1], hs[|hs| - 1];
      var before := CallAll(o, m, front, p).value;
      ConsistentClosed(o);
      CallClosed(o, before, last, p, Consistent);
      UnmarkedBefore(before, result.value, name, final);
      CallAllFollows(o, n, m, m', front, p, name, k, final);
      CallAllGrows(o, m, front, p);
      KeepsReplay(m, before);
      CallFollows(o, n, before, CallAll(n, m', front, p).value, last, p, name, k, final);
    }
  }

  // ----- Events and windows -----

  lemma AbsorbAlike(m: Machine, m': Machine, e: Event, name: string)
    requires Alike(m, m', name) && Absorb(m.manager, e).Ok?
    requires Text(name) !in Absorb(m.manager, e).value.releases
    ensures Absorb(m'.manager, e).Ok?
    ensures Alike(Absorbed(m, e), Absorbed(m', e), name) && (Known(Absorbed(m', e), name) <==> Known(m', name))
  {
    if e.kind.MarkerRecorded? {
      MarkerAlike(m.manager, m'.manager, e, name);
    } else {
      hide HandleMarker;
    }
  }

  lemma MarkerAlike(m: ManagerState, m': ManagerState, e: Event, name: string)
    requires m' == m.(releases := m'.releases) && ReleasesMatch(m.releases, m'.releases, name)
    requires e.kind.MarkerRecorded? && Absorb(m, e).Ok? && Text(name) !in Absorb(m, e).value.releases
    ensures Absorb(m', e).Ok?
    ensures Absorb(m', e).value == Absorb(m, e).value.(releases := Absorb(m', e).value.releases)
    ensures ReleasesMatch(Absorb(m, e).value.releases, Absorb(m', e).value.releases, name)
    ensures Text(name) in Absorb(m', e).value.releases <==> Text(name) in m'.releases
  {
    hide Absorb;
    var d, key := e.kind.details, Text(name);
    AbsorbReleases(m, e);
    MarkerAbsorbed(m, m'.releases, e);
    var r, r' := m.releases, m'.releases;
    assert r' == r[key := false] && d != key ==> r'[d := true] == r[d := true][key := false];
  }

  lemma MarkerAbsorbed(m: ManagerState, releases: Releases, e: Event)
    requires e.kind.MarkerRecorded? && Absorb(m, e).Ok?
    ensures
      Absorb(m.(releases := releases), e)
      == Ok(Absorb(m, e).value.(
              releases := if e.kind.markerName == RELEASE_MARKER then releases[e.kind.details := true] else releases))
  {
    assert |SIDE_EFFECT_MARKER| != |RELEASE_MARKER|;
  }

  lemma EventFollows(o: Env, n: Env, m: Machine, m': Machine, e: Event, name: string, k: nat, final: seq<LogEntry>)
    requires Deploying(o, n, name, k, final) && Resting(n.code, m, m', name) && m.manager.replay
    ensures Follows(n.code, ApplyEvent(o, m, e), ApplyEvent(n, m', e), name, final)
    ensures ApplyEvent(o, m, e).Ok? ==> ApplyEvent(o, m, e).value.manager.replay
  {
    EventLogGrows(o, m, e);
    var result := ApplyEvent(o, m, e);
    if result.Ok? && Unmarked(result.value, name, final) {
      ConsistentClosed(o);
      ApplyEventClosed(o, m, e, Consistent);
      UnmarkedBefore(Absorbed(m, e), result.value, name, final);
      AbsorbKeepsReplay(m.manager, e);
      RestingParts(n.code, m, m', name);
      AbsorbAlike(m, m', e, name);
      StopDeployed(n.code, m, m', Absorbed(m, e), Absorbed(m', e), name);
      hide Absorb, CallAll, Deploying, Resting, Unmarked, NoticeOf;
      var notice := NoticeOf(e);
      if notice.Some? {
        var hs := Select(HandlersAt(m.handlers, notice.value.target), notice.value.name);
        CallAllFollows(o, n, Absorbed(m, e), Absorbed(m', e), hs, notice.value.payload, name, k, final);
      }
    }
  }

  lemma {:induction false} EventsFollow(o: Env, n: Env, m: Machine, m': Machine, es: seq<Event>, name: string, k: nat,
          final: seq<LogEntry>)
    requires Deploying(o, n, name, k, final) && Resting(n.code, m, m', name) && m.manager.replay
    ensures Follows(n.code, ApplyEvents(o, m, es), ApplyEvents(n, m', es), name, final)
    ensures ApplyEvents(o, m, es).Ok? ==> ApplyEvents(o, m, es).value.manager.replay
    decreases |es|
  {
    hide ApplyEvent, Deploying, Resting, Unmarked, Consistent;
    var result := ApplyEvents(o, m, es);
    if es != [] {
      var front, last := es[..|es| - 1], es[|es| - 1];
      EventsFollow(o, n, m, m', front, name, k, final);
      if result.Ok? {
        var before := ApplyEvents(o, m, front).value;
        EventLogGrows(o, before, last);
        if Unmarked(result.value, name, final) {
          EventUnmarked(o, before, last, name, final);
          EventFollows(o, n, before, ApplyEvents(n, m', front).value, last, name, k, final);
        }
      }
    }
  }

  lemma EventUnmarked(o: Env, m: Machine, e: Event, name: string, final: seq<LogEntry>)
    requires ApplyEvent(o, m, e).Ok? && Unmarked(ApplyEvent(o, m, e).value, name, final)
    ensures Unmarked(m, name, final)
  {
    ConsistentClosed(o);
    ApplyEventClosed(o, m, e, Consistent);
    UnmarkedBefore(Absorbed(m, e), ApplyEvent(o, m, e).value, name, final);
    AbsorbReleases(m.manager, e);
  }

  lemma {:induction false} EventsUnmarked(o: Env, m: Machine, es: seq<Event>, name: string, final: seq<LogEntry>)
    requires ApplyEvents(o, m, es).Ok? && Unmarked(ApplyEvents(o, m, es).value, name, final)
    ensures Unmarked(m, name, final)
    decreases |es|
  {
    hide ApplyEvent;
    if es != [] {
      EventUnmarked(o, ApplyEvents(o, m, es[..|es| - 1]).value, es[|es| - 1], name, final);
      EventsUnmarked(o, m, es[..|es| - 1], name, final);
    }
  }

  lemma EnteredResting(code: Code, m: Machine, m': Machine, w: WindowState, name: string)
    requires Resting(code, m, m', name)
    ensures Resting(code, Entered(m, w), Entered(m', w), name)
  {
  }

  lemma WindowFollows(o: Env, n: Env, m: Machine, m': Machine, w: WindowState, name: string, k: nat,
          final: seq<LogEntry>)
    requires Deploying(o, n, name, k, final) && Resting(n.code, m, m', name) && w.replay
    ensures Follows(n.code, ApplyWindow(o, m, w), ApplyWindow(n, m', w), name, final)
  {
    hide ApplyEvents, Deploying, Resting;
    EnteredResting(n.code, m, m', w, name);
    var a, a' := Entered(m, w), Entered(m', w);
    EventsFollow(o, n, a, a', w.markers, name, k, final);
    var result := ApplyWindow(o, m, w);
    if result.Ok? && Unmarked(result.value, name, final) {
      var loaded := ApplyEvents(o, a, w.markers).value;
      EventsUnmarked(o, loaded, w.events, name, final);
      EventsFollow(o, n, loaded, ApplyEvents(n, a', w.markers).value, w.events, name, k, final);
    }
  }

  lemma WindowUnmarked(o: Env, m: Machine, w: WindowState, name: string, final: seq<LogEntry>)
    requires ApplyWindow(o, m, w).Ok? && Unmarked(ApplyWindow(o, m, w).value, name, final)
    ensures Unmarked(m, name, final)
  {
    hide ApplyEvents;
    EventsUnmarked(o, ApplyEvents(o, Entered(m, w), w.markers).value, w.events, name, final);
    EventsUnmarked(o, Entered(m, w), w.markers, name, final);
  }

  lemma {:induction false} WindowsFollow(o: Env, n: Env, segments: seq<seq<Event>>, name: string, k: nat,
          final: seq<LogEntry>)
    requires Deploying(o, n, name, k, final) && AllRecorded(segments)
    ensures
      Follows(n.code, ApplyWindows(o, FRESH_MACHINE, segments), ApplyWindows(n, FRESH_MACHINE, segments), name, final)
    decreases |segments|
  {
    hide ApplyWindow, Deploying, Collect, Unmarked, Resting;
    var result := ApplyWindows(o, FRESH_MACHINE, segments);
    if segments == [] {
      FreshResting(n.code, name);
    } else if result.Ok? && Unmarked(result.value, name, final) {
      var front, last := segments[..|segments| - 1], Collect(segments[|segments| - 1]);
      var before := ApplyWindows(o, FRESH_MACHINE, front).value;
      WindowUnmarked(o, before, last, name, final);
      WindowsFollow(o, n, front, name, k, final);
      WindowFollows(o, n, before, ApplyWindows(n, FRESH_MACHINE, front).value, last, name, k, final);
    }
  }

  lemma FreshResting(code: Code, name: string)
    ensures Resting(code, FRESH_MACHINE, FRESH_MACHINE, name)
  {
  }

  // ----- How often the code asks -----

  /** Told false often enough, the fiber that was last heard of does something else. */
  ghost predicate StopsAsking(code: Code, log: seq<LogEntry>, name: string)
    requires log != []
  {
    exists k: nat :: AsksWithin(code, log, name, k)
  }

  /** Wherever it has seen a part of `final`, the code does not check the release for ever. */
  ghost predicate NeverAsksForEver(code: Code, name: string, final: seq<LogEntry>) {
    forall log :: Reaches(code, log, name, final) ==> StopsAsking(code, log, name)
  }

  lemma {:induction false} AsksWithinMore(code: Code, log: seq<LogEntry>, name: string, k: nat, more: nat)
    requires log != [] && k <= more && AsksWithin(code, log, name, k)
    ensures AsksWithin(code, log, name, more)
    decreases k
  {
    if Asks(code, log, name) {
      AsksWithinMore(code, log + [FalseCheck(log[|log| - 1].fiber, name)], name, k - 1, more - 1);
    }
  }

  /** Where a longer log differs in checks only, the next entry is a check answered false. */
  lemma NextIsCheck(code: Code, a: seq<LogEntry>, b: seq<LogEntry>, name: string)
    requires Faithful(code, b, name) && AllAnswered(b, name, false)
    requires a != [] && a <= b && |a| < |b| && Strip(a, name) == Strip(b, name)
    ensures Asks(code, a, name)
    ensures
      var next := a + [FalseCheck(a[|a| - 1].fiber, name)];
      next <= b && Strip(next, name) == Strip(b, name)
  {
    hide Strip, Asks;
    assert b[..|a|] == a;
    if !IsCheck(b[|a|], name) {
      StripAt(b, name, |a|);
      assert false;
    }
    StripSnoc(a, FalseCheck(a[|a| - 1].fiber, name), name);
  }

  lemma {:induction false} AsksWithinEarlier(code: Code, a: seq<LogEntry>, b: seq<LogEntry>, name: string, k: nat)
    requires Faithful(code, b, name) && AllAnswered(b, name, false)
    requires a != [] && a <= b && Strip(a, name) == Strip(b, name) && AsksWithin(code, b, name, k)
    ensures AsksWithin(code, a, name, k + |b| - |a|)
    decreases |b| - |a|
  {
    hide Faithful, AllAnswered, Strip, Asks;
    if |a| < |b| {
      NextIsCheck(code, a, b, name);
      AsksWithinEarlier(code, a + [FalseCheck(a[|a| - 1].fiber, name)], b, name, k);
    } else {
      assert a == b;
    }
  }

  lemma {:induction false} AsksWithinLater(code: Code, a: seq<LogEntry>, b: seq<LogEntry>, name: string, k: nat)
    requires Faithful(code, b, name) && AllAnswered(b, name, false)
    requires a != [] && a <= b && Strip(a, name) == Strip(b, name) && AsksWithin(code, a, name, k)
    ensures AsksWithin(code, b, name, k)
    decreases |b| - |a|
  {
    hide Faithful, AllAnswered, Strip, AsksWithin;
    if |a| < |b| {
      NextIsCheck(code, a, b, name);
      AsksOnce(code, a, name, k);
      AsksWithinLater(code, a + [FalseCheck(a[|a| - 1].fiber, name)], b, name, k - 1);
      AsksWithinMore(code, b, name, k - 1, k);
    } else {
      assert a == b;
    }
  }

  /** Logs that differ in checks only are parts of one another, so one bound does for all of them. */
  lemma OneBound(code: Code, a: seq<LogEntry>, b: seq<LogEntry>, name: string, k: nat)
    requires Faithful(code, a, name) && AllAnswered(a, name, false) && a != []
    requires Faithful(code, b, name) && AllAnswered(b, name, false) && b != []
    requires Strip(a, name) == Strip(b, name) && AsksWithin(code, a, name, k)
    ensures AsksWithin(code, b, name, k + |a|)
  {
    hide *;
    if |a| <= |b| {
      SamePrefix(code, a, b, name, false, |a|);
      assert a == a[..|a|] == b[..|a|];
      AsksWithinLater(code, a, b, name, k);
      AsksWithinMore(code, b, name, k, k + |a|);
    } else {
      SamePrefix(code, b, a, name, false, |b|);
      assert b == b[..|b|] == a[..|b|];
      AsksWithinEarlier(code, b, a, name, k);
      AsksWithinMore(code, b, name, k + |a| - |b|, k + |a|);
    }
  }

  lemma BoundAt(code: Code, name: string, final: seq<LogEntry>) returns (k: nat)
    requires NeverAsksForEver(code, name, final)
    ensures
      forall log :: Reaches(code, log, name, final) && Strip(log, name) == final ==> AsksWithin(code, log, name, k)
  {
    hide Faithful, AllAnswered, Strip, AsksWithin;
    k := 0;
    if exists log :: Reaches(code, log, name, final) && Strip(log, name) == final {
      var a :| Reaches(code, a, name, final) && Strip(a, name) == final;
      assert StopsAsking(code, a, name);
      var once: nat :| AsksWithin(code, a, name, once);
      k := once + |a|;
      forall log | Reaches(code, log, name, final) && Strip(log, name) == final
        ensures AsksWithin(code, log, name, k)
      {
        OneBound(code, a, log, name, once);
      }
    }
  }

  /** Code that never asks for ever has a bound for the checks in a row. */
  lemma {:induction false} BoundedAsks(code: Code, name: string, final: seq<LogEntry>) returns (k: nat)
    requires NeverAsksForEver(code, name, final)
    ensures AsksAtMost(code, name, k, final)
  {
    hide Faithful, AllAnswered, Strip, AsksWithin;
    k := BoundAt(code, name, final);
    var last := k;
    if final != [] {
      var front := final[..|final| - 1];
      assert forall log :: Reaches(code, log, name, front) ==> Reaches(code, log, name, final);
      var earlier := BoundedAsks(code, name, front);
      k := if last < earlier then earlier else last;
      forall log | Reaches(code, log, name, final)
        ensures AsksWithin(code, log, name, k)
      {
        if Strip(log, name) == final {
          AsksWithinMore(code, log, name, last, k);
        } else {
          assert Reaches(code, log, name, front);
          AsksWithinMore(code, log, name, earlier, k);
        }
      }
    }
  }

  /** In a log that ends with something else than a question, every question ended. */
  lemma {:induction false} Stopped(code: Code, a: seq<LogEntry>, b: seq<LogEntry>, name: string)
    requires Faithful(code, b, name) && AllAnswered(b, name, false) && !Asks(code, b, name)
    requires a != [] && a <= b
    ensures AsksWithin(code, a, name, |b| - |a|)
    decreases |b| - |a|
  {
    hide Asks;
    assert b[..|a|] == a;
    if |a| == |b| {
      assert a == b;
    } else if Asks(code, a, name) {
      var next := a + [FalseCheck(a[|a| - 1].fiber, name)];
      assert b[|a|] == next[|a|];
      Stopped(code, next, b, name);
    }
  }

  // ----- The theorems -----

  /** The executor of the new code is that of the old one in every respect but the release: all its checks are false,
      and it knows the release exactly if it made one. */
  ghost predicate Carries(m: Machine, m': Machine, code: Code, name: string) {
    && m' == m.(log := m'.log, manager := m.manager.(releases := m'.manager.releases))
    && m'.manager.releases
       == (if Asked(m'.log, name) then m.manager.releases[Text(name) := false] else m.manager.releases)
    && Strip(m'.log, name) == m.log
    && AllAnswered(m'.log, name, false) && Faithful(code, m'.log, name) && !Asks(code, m'.log, name)
  }

  /** The new code `n` replays a history of the old code `o`, and goes on from the same state. */
  ghost predicate Continues(o: Env, n: Env, name: string, history: seq<Event>)
    requires Execute(o, history).Ok?
  {
    Execute(n, history).Ok? && Carries(Execute(o, history).value, Execute(n, history).value, n.code, name)
  }

  lemma RestingContinues(o: Env, n: Env, name: string, history: seq<Event>)
    requires Execute(o, history).Ok? && Execute(n, history).Ok?
    requires Resting(n.code, Execute(o, history).value, Execute(n, history).value, name)
    ensures Continues(o, n, name, history)
  {
    hide Execute, Strip, AllAnswered, Faithful, Asked, Asks;
  }

  /** The old code on one history: recorded throughout, and replayed without a word of the release. */
  ghost predicate Recording(o: Env, code: Code, name: string, history: seq<Event>) {
    && CleanedUp(code, o.code, name, false) && AllRecorded(Split(history))
    && Execute(o, history).Ok? && !Known(Execute(o, history).value, name)
  }

  /** Deploying a check preserves replay: whatever history of completed tasks the old code replays, new code with the
      old one as its false branch continues it, given enough requests, unless it asks for ever. */
  lemma DeployingCheckPreservesReplay(o: Env, code: Code, name: string, history: seq<Event>) returns (enough: nat)
    requires Recording(o, code, name, history)
    requires NeverAsksForEver(code, name, Execute(o, history).value.log)
    ensures forall budget: nat :: budget >= enough ==> Continues(o, Env(code, o.oracle, budget), name, history)
  {
    hide Execute, CleanedUp, AsksAtMost, NeverAsksForEver, AllRecorded, Resting, Continues, Split;
    var final := Execute(o, history).value.log;
    var k := BoundedAsks(code, name, final);
    enough := (k + 1) * o.budget;
    forall budget: nat | budget >= enough
      ensures Continues(o, Env(code, o.oracle, budget), name, history)
    {
      var n := Env(code, o.oracle, budget);
      HistoryFollows(o, n, history, name, k, final);
      RestingContinues(o, n, name, history);
    }
  }

  lemma HistoryFollows(o: Env, n: Env, history: seq<Event>, name: string, k: nat, final: seq<LogEntry>)
    requires Deploying(o, n, name, k, final) && AllRecorded(Split(history))
    ensures Follows(n.code, Execute(o, history), Execute(n, history), name, final)
  {
    hide Deploying, AllRecorded, Follows, ApplyWindows;
    WindowsFollow(o, n, Split(history), name, k, final);
  }

  /** The condition is exact: some number of requests is enough if and only if the new code does not ask for ever. */
  lemma DeployableExactlyWhen(o: Env, code: Code, name: string, history: seq<Event>)
    requires Recording(o, code, name, history)
    ensures
      (exists budget: nat :: Continues(o, Env(code, o.oracle, budget), name, history))
      <==> NeverAsksForEver(code, name, Execute(o, history).value.log)
  {
    hide Execute, CleanedUp, AllRecorded, Split, Strip, Faithful, AllAnswered, Asked, Asks, AsksWithin;
    var final := Execute(o, history).value.log;
    if NeverAsksForEver(code, name, final) {
      var enough := DeployingCheckPreservesReplay(o, code, name, history);
      assert Continues(o, Env(code, o.oracle, enough), name, history);
    }
    if exists budget: nat :: Continues(o, Env(code, o.oracle, budget), name, history) {
      var budget: nat :| Continues(o, Env(code, o.oracle, budget), name, history);
      var log' := Execute(Env(code, o.oracle, budget), history).value.log;
      forall log | Reaches(code, log, name, final)
        ensures StopsAsking(code, log, name)
      {
        SettledCovers(code, log, log', name, false);
        Stopped(code, log, log', name);
      }
    }
  }

  /** Every new code, whatever its fibers share, has an old one whose histories it continues: its checks replaced by
      their false branch. */
  lemma EveryCheckCanBeDeployed(code: Code, name: string, oracle: Option<int> -> Value, budget: nat,
                                history: seq<Event>)
    requires AllRecorded(Split(history))
    requires
      var before := Execute(Env(Plain(code, name, false), oracle, budget), history);
      before.Ok? && !Known(before.value, name)
    ensures
      var o := Env(Plain(code, name, false), oracle, budget);
      && CleanedUp(code, o.code, name, false)
      && ((exists more: nat :: Continues(o, Env(code, oracle, more), name, history))
          <==> NeverAsksForEver(code, name, Execute(o, history).value.log))
  {
    hide Execute, CleanedUp, AllRecorded, Known, Split, Continues, NeverAsksForEver;
    EveryCheckCanBeDropped(code, name, false);
    DeployableExactlyWhen(Env(Plain(code, name, false), oracle, budget), code, name, history);
  }
}
