/** Release checks over whole runs: what a check once answered, every later check of the release answers too, until a
    marker of the release is handled. */
module Stickiness {
  import opened Base
  import opened Events
  import opened Histories
  import opened StateManagers
  import opened Decisions
  import opened Engine
  import opened Runs

  /** Entry `i` of the log is an answered check of a release. */
  predicate CheckAt(log: seq<LogEntry>, i: nat, name: string) {
    i < |log| && log[i].Answered? && log[i].request == HasRelease(name)
  }

  /** No check of the release was answered with a flag between two points of the log. */
  predicate Unanswered(log: seq<LogEntry>, from: nat, to: nat, name: string) {
    forall k: nat :: from <= k < to && CheckAt(log, k, name) ==> !log[k].answer.Flag?
  }

  /** A check made after the log had `from` entries was answered from the releases; only while no check has been
      answered can one have raised instead. */
  predicate AnswerHolds(m: Machine, i: nat, name: string, from: nat, known: Releases) {
    CheckAt(m.log, i, name) ==>
      && Text(name) in m.manager.releases
      && (m.log[i].answer == Flag(m.manager.releases[Text(name)])
          || (m.log[i].answer.Raised? && Text(name) !in known && Unanswered(m.log, from, i, name)))
  }

  ghost predicate AnswersHold(m: Machine, from: nat, known: Releases) {
    forall i: nat, name :: from <= i ==> AnswerHolds(m, i, name, from, known)
  }

  /** What running code keeps. */
  ghost predicate Consistent(m: Machine, m': Machine) {
    && m.log <= m'.log
    && Kept(m.manager.releases, m'.manager.releases)
    && AnswersHold(m', |m.log|, m.manager.releases)
  }

  lemma ConsistentTransitive(a: Machine, b: Machine, c: Machine)
    requires Consistent(a, b) && Consistent(b, c)
    ensures Consistent(a, c)
  {
    forall i: nat, name | |a.log| <= i
      ensures AnswerHolds(c, i, name, |a.log|, a.manager.releases)
    {
      if |b.log| <= i {
        assert AnswerHolds(c, i, name, |b.log|, b.manager.releases);
        if CheckAt(c.log, i, name) && c.log[i].answer.Raised? {
          StillUnanswered(a, b, c, i, name);
        }
      } else {
        assert AnswerHolds(b, i, name, |a.log|, a.manager.releases);
        assert forall k: nat :: k <= i && CheckAt(c.log, k, name) ==> b.log[k] == c.log[k];
      }
    }
  }

  lemma StillUnanswered(a: Machine, b: Machine, c: Machine, i: nat, name: string)
    requires Consistent(a, b) && b.log <= c.log && |b.log| <= i
    requires Text(name) !in b.manager.releases && Unanswered(c.log, |b.log|, i, name)
    ensures Text(name) !in a.manager.releases && Unanswered(c.log, |a.log|, i, name)
  {
    forall k: nat | |a.log| <= k < i && CheckAt(c.log, k, name)
      ensures !c.log[k].answer.Flag?
    {
      assert k < |b.log| ==> AnswerHolds(b, k, name, |a.log|, a.manager.releases);
    }
  }

  lemma PerformConsistent(env: Env, m: Machine, fiber: nat, r: Request)
    ensures
      var reply := Perform(env, m, r);
      Consistent(m, Logged(reply.machine, Answered(fiber, r, reply.answer)))
  {
    var reply := Perform(env, m, r);
    var m' := Logged(reply.machine, Answered(fiber, r, reply.answer));
    PerformReleases(env, m, r);
    forall i: nat, name | |m.log| <= i
      ensures AnswerHolds(m', i, name, |m.log|, m.manager.releases)
    {
    }
  }

  lemma PerformReleases(env: Env, m: Machine, r: Request)
    ensures
      var reply := Perform(env, m, r);
      && reply.machine.log == m.log
      && Kept(m.manager.releases, reply.machine.manager.releases)
      && (r.HasRelease? ==>
            var key := Text(r.name);
            && key in reply.machine.manager.releases
            && (reply.answer == Flag(reply.machine.manager.releases[key])
                || (reply.answer.Raised? && key !in m.manager.releases)))
  {
    if r.HasRelease? {
      CheckReleases(m.manager, r.name);
    } else {
      hide ScheduleDecision, Register;
      OthersKeepReleases(env, m, r);
    }
  }

  lemma ScheduleKeepsReleases(m: ManagerState, d: Decision)
    ensures ScheduleDecision(m, d).state.releases == m.releases
  {
  }

  lemma CheckReleases(m: ManagerState, name: string)
    ensures
      var o, key := CheckRelease(m, name), Text(name);
      && Kept(m.releases, o.state.releases) && key in o.state.releases
      && (o.result.Ok? ==> o.result.value == o.state.releases[key])
      && (o.result.Err? ==> key !in m.releases)
  {
    hide ScheduleDecision;
    var m1 := m.(releases := m.releases[Text(name) := true]);
    ScheduleKeepsReleases(m1, RecordMarker(RELEASE_MARKER, Text(name)));
  }

  lemma OthersKeepReleases(env: Env, m: Machine, r: Request)
    requires !r.HasRelease?
    ensures
      var reply := Perform(env, m, r);
      reply.machine.log == m.log && reply.machine.manager.releases == m.manager.releases
  {
    forall d: Decision
      ensures ScheduleDecision(m.manager, d).state.releases == m.manager.releases
    {
      ScheduleKeepsReleases(m.manager, d);
    }
    hide ScheduleDecision, Register;
  }

  lemma FinishConsistent(m: Machine, root: bool, r: Request)
    requires (r.Return? || r.Raise?) && Finish(m, root, r).Ok?
    ensures Consistent(m, Finish(m, root, r).value)
  {
    hide AnswersHold;
    NothingNew(m, Finish(m, root, r).value);
  }

  /** Without new entries and with the same releases nothing can be inconsistent. */
  lemma NothingNew(m: Machine, m': Machine)
    requires m'.log == m.log && m'.manager.releases == m.manager.releases
    ensures Consistent(m, m')
  {
  }

  lemma {:induction false} RunConsistent(env: Env, m: Machine, fiber: nat, root: bool, steps: nat)
    requires Run(env, m, fiber, root, steps).Ok?
    ensures Consistent(m, Run(env, m, fiber, root, steps).value)
    decreases steps
  {
    hide Perform, Finish, Consistent;
    var r := env.code(fiber, m.log);
    if r.Return? || r.Raise? {
      FinishConsistent(m, root, r);
    } else if MustPark(m, r) {
      NothingNew(m, Park(m, fiber, root, r.future));
    } else {
      var reply := Perform(env, m, r);
      var next := Logged(reply.machine, Answered(fiber, r, reply.answer));
      PerformConsistent(env, m, fiber, r);
      RunConsistent(env, next, fiber, root, steps - 1);
      ConsistentTransitive(m, next, Run(env, next, fiber, root, steps - 1).value);
    }
  }

  /** A new entry that is no check. */
  lemma LoggedConsistent(m: Machine, m': Machine, e: LogEntry)
    requires m'.log == m.log + [e] && m'.manager == m.manager && (e.Answered? ==> !e.request.HasRelease?)
    ensures Consistent(m, m')
  {
  }

  lemma LaunchConsistent(env: Env, m: Machine, root: bool, e: LogEntry)
    requires Launch(env, m, root, e).Ok? && Starts(root, e, |m.fibers|)
    ensures Consistent(m, Launch(env, m, root, e).value)
  {
    hide Run, Consistent;
    var m1 := Logged(m.(fibers := m.fibers + [NotParked]), e);
    LoggedConsistent(m, m1, e);
    RunConsistent(env, m1, |m.fibers|, root, env.budget);
    ConsistentTransitive(m, m1, Launch(env, m, root, e).value);
  }

  lemma WakeConsistent(env: Env, m: Machine, f: nat, fiber: nat)
    requires f < |m.futures| && WakeFiber(env, m, f, fiber).Ok?
    ensures Consistent(m, WakeFiber(env, m, f, fiber).value)
  {
    hide Run, Consistent;
    if m.futures[f].status.Pending? {
      NothingNew(m, m);
    } else {
      var Parked(root, g) := m.fibers[fiber];
      var e := Answered(fiber, Wait(g), Observed(m.futures[g].status));
      var m1 := Logged(m.(fibers := m.fibers[fiber := NotParked]), e);
      LoggedConsistent(m, m1, e);
      RunConsistent(env, m1, fiber, root, env.budget);
      ConsistentTransitive(m, m1, WakeFiber(env, m, f, fiber).value);
    }
  }

  lemma ConsistentClosed(env: Env)
    ensures Closed(env, Consistent)
  {
    hide Launch, WakeFiber, Consistent;
    forall m
      ensures Consistent(m, m)
    {
      NothingNew(m, m);
    }
    forall a, b, c | Consistent(a, b) && Consistent(b, c)
      ensures Consistent(a, c)
    {
      ConsistentTransitive(a, b, c);
    }
    forall m: Machine, root, e | Starts(root, e, |m.fibers|) && Launch(env, m, root, e).Ok?
      ensures Consistent(m, Launch(env, m, root, e).value)
    {
      LaunchConsistent(env, m, root, e);
    }
    forall m: Machine, f: nat, status | f < |m.futures|
      ensures Consistent(m, WithStatus(m, f, status))
    {
      NothingNew(m, WithStatus(m, f, status));
    }
    forall m: Machine, f: nat, fiber: nat | f < |m.futures| && WakeFiber(env, m, f, fiber).Ok?
      ensures Consistent(m, WakeFiber(env, m, f, fiber).value)
    {
      WakeConsistent(env, m, f, fiber);
    }
  }

  // ----- Markers -----

  /** The event is a marker of a release. */
  predicate Marks(e: Event, name: string) {
    e.kind.MarkerRecorded? && e.kind.markerName == RELEASE_MARKER && e.kind.details == Text(name)
  }

  lemma AbsorbReleases(m: ManagerState, e: Event)
    requires Absorb(m, e).Ok?
    ensures
      Absorb(m, e).value.releases
      == if e.kind.MarkerRecorded? && e.kind.markerName == RELEASE_MARKER then m.releases[e.kind.details := true]
         else m.releases
  {
    assert |SIDE_EFFECT_MARKER| != |RELEASE_MARKER|;
  }

  /** One event: a marker makes its release true, and then the code is consistent with that. */
  lemma EventStep(env: Env, t: Machine, m: Machine, e: Event, t': Machine)
    requires SameButWindow(t, m) && ApplyEvent(env, m, e) == Ok(t')
    ensures Absorb(m.manager, e).Ok? && Consistent(Absorbed(m, e), t')
    ensures Absorbed(m, e).log == t.log
    ensures
      forall name ::
        var known := Absorbed(m, e).manager.releases;
        if Marks(e, name) then Text(name) in known && known[Text(name)]
        else Text(name) in known <==> Text(name) in t.manager.releases
    ensures
      forall name ::
        !Marks(e, name) && Text(name) in t.manager.releases ==>
          Absorbed(m, e).manager.releases[Text(name)] == t.manager.releases[Text(name)]
  {
    ConsistentClosed(env);
    ApplyEventClosed(env, m, e, Consistent);
    AbsorbReleases(m.manager, e);
  }

  // ----- The theorem -----

  /** A marker of the release is among the first `k` events and was handled when the log already had entry `i`. */
  ghost predicate MarkedSince(trace: seq<Machine>, es: seq<Event>, k: nat, i: nat, name: string)
    requires k <= |es| && |trace| == |es| + 1
  {
    exists q: nat :: q < k && Marks(es[q], name) && i < |trace[q].log|
  }

  /** After `k` events, each release has the value that any earlier check answered, or true if it was marked since. */
  ghost predicate RemembersAt(trace: seq<Machine>, es: seq<Event>, k: nat, i: nat, name: string)
    requires k <= |es| && |trace| == |es| + 1
  {
    CheckAt(trace[k].log, i, name) && trace[k].log[i].answer.Flag? ==>
      && Text(name) in trace[k].manager.releases
      && trace[k].manager.releases[Text(name)] == (trace[k].log[i].answer.flag || MarkedSince(trace, es, k, i, name))
  }

  ghost predicate Remembers(trace: seq<Machine>, es: seq<Event>, k: nat)
    requires k <= |es| && |trace| == |es| + 1
  {
    forall i: nat, name :: RemembersAt(trace, es, k, i, name)
  }

  /** What one step of a run does to log and releases. */
  ghost predicate Advances(t: Machine, t': Machine, e: Event, known: Releases) {
    && t.log <= t'.log
    && Kept(known, t'.manager.releases)
    && AnswersHold(t', |t.log|, known)
    && (forall name :: Marks(e, name) ==> Text(name) in known && known[Text(name)])
    && (forall name :: !Marks(e, name) ==>
          && (Text(name) in known <==> Text(name) in t.manager.releases)
          && (Text(name) in known ==> known[Text(name)] == t.manager.releases[Text(name)]))
  }

  lemma StepAdvances(env: Env, trace: seq<Machine>, es: seq<Event>, k: nat) returns (known: Releases)
    requires Stepwise(env, trace, es) && k < |es|
    ensures Advances(trace[k], trace[k + 1], es[k], known)
  {
    hide ApplyEvent;
    assert StepOf(env, trace, es, k);
    var m :| SameButWindow(trace[k], m) && ApplyEvent(env, m, es[k]) == Ok(trace[k + 1]);
    hide Absorb, Marks, Kept, AnswersHold, SameButWindow;
    EventStep(env, trace[k], m, es[k], trace[k + 1]);
    known := Absorbed(m, es[k]).manager.releases;
  }

  lemma {:induction false} LogsGrow(env: Env, trace: seq<Machine>, es: seq<Event>, i: nat, j: nat)
    requires Stepwise(env, trace, es) && i <= j <= |es|
    ensures trace[i].log <= trace[j].log
    decreases j
  {
    hide Stepwise;
    StepwiseLength(env, trace, es);
    if i < j {
      LogsGrow(env, trace, es, i, j - 1);
      var known := StepAdvances(env, trace, es, j - 1);
    }
  }

  lemma MarkedLater(trace: seq<Machine>, es: seq<Event>, k: nat, i: nat, name: string)
    requires k < |es| && |trace| == |es| + 1
    ensures MarkedSince(trace, es, k + 1, i, name)
      <==> MarkedSince(trace, es, k, i, name) || (Marks(es[k], name) && i < |trace[k].log|)
  {
  }

  lemma RemembersStep(env: Env, trace: seq<Machine>, es: seq<Event>, k: nat, i: nat, name: string)
    requires Stepwise(env, trace, es) && k < |es| && RemembersAt(trace, es, k, i, name)
    ensures RemembersAt(trace, es, k + 1, i, name)
  {
    hide Stepwise, Marks;
    StepwiseLength(env, trace, es);
    var known := StepAdvances(env, trace, es, k);
    var t, t' := trace[k], trace[k + 1];
    if CheckAt(t'.log, i, name) && t'.log[i].answer.Flag? {
      MarkedLater(trace, es, k, i, name);
      if i < |t.log| {
        assert CheckAt(t.log, i, name) && t'.log[i] == t.log[i];
      } else {
        assert AnswerHolds(t', i, name, |t.log|, known);
        forall q: nat | q <= k
          ensures |trace[q].log| <= i
        {
          LogsGrow(env, trace, es, q, k);
        }
      }
    }
  }

  lemma {:induction false} TraceRemembers(env: Env, trace: seq<Machine>, es: seq<Event>, k: nat)
    requires Stepwise(env, trace, es) && k <= |es|
    ensures Remembers(trace, es, k)
  {
    hide Stepwise, RemembersAt;
    StepwiseLength(env, trace, es);
    if k == 0 {
      NothingToRemember(env, trace, es);
    } else {
      TraceRemembers(env, trace, es, k - 1);
      forall i: nat, name
        ensures RemembersAt(trace, es, k, i, name)
      {
        RemembersStep(env, trace, es, k - 1, i, name);
      }
    }
  }

  lemma NothingToRemember(env: Env, trace: seq<Machine>, es: seq<Event>)
    requires Stepwise(env, trace, es)
    ensures Remembers(trace, es, 0)
  {
  }

  /** The event during which the log got entry `j`. */
  lemma {:induction false} LoggedDuring(env: Env, trace: seq<Machine>, es: seq<Event>, j: nat, n: nat) returns (q: nat)
    requires Stepwise(env, trace, es) && n <= |es| && j < |trace[n].log|
    ensures q < n && |trace[q].log| <= j < |trace[q + 1].log|
  {
    hide Stepwise, ApplyEvent;
    StepwiseLength(env, trace, es);
    if n == 0 {
      EmptyAtFirst(env, trace, es);
    } else if |trace[n - 1].log| <= j {
      q := n - 1;
    } else {
      q := LoggedDuring(env, trace, es, j, n - 1);
    }
  }

  lemma EmptyAtFirst(env: Env, trace: seq<Machine>, es: seq<Event>)
    requires Stepwise(env, trace, es)
    ensures |trace[0].log| == 0
  {
  }

  /** A marker of the release is handled between the log's entries `i` and `j`. */
  ghost predicate MarkedBetween(env: Env, h: seq<Event>, i: nat, j: nat, name: string)
    requires Execute(env, h).Ok?
  {
    var trace, es := Trace(env, Split(h)), Applied(Split(h));
    exists q: nat :: q < |es| && Marks(es[q], name) && i < |trace[q].log| <= j
  }

  /** Sticky answers, over every run of any code on any history: once a check of a release was answered, every later
      check of it gets the same answer, except that a false one turns true exactly when a marker of the release is
      handled in between. */
  lemma StickyAnswers(env: Env, h: seq<Event>, i: nat, j: nat, name: string)
    requires Execute(env, h).Ok? && i < j
    requires CheckAt(Execute(env, h).value.log, i, name) && CheckAt(Execute(env, h).value.log, j, name)
    requires Execute(env, h).value.log[i].answer.Flag?
    ensures
      var log := Execute(env, h).value.log;
      log[j].answer == Flag(log[i].answer.flag || MarkedBetween(env, h, i, j, name))
  {
    hide Stepwise, ApplyWindows, Split, Applied, Marks, Trace;
    var trace, es := Trace(env, Split(h)), Applied(Split(h));
    RunStepwise(env, Split(h));
    StickyOnTrace(env, trace, es, i, j, name);
  }

  lemma StickyOnTrace(env: Env, trace: seq<Machine>, es: seq<Event>, i: nat, j: nat, name: string)
    requires Stepwise(env, trace, es) && |trace| == |es| + 1 && i < j
    requires CheckAt(trace[|es|].log, i, name) && CheckAt(trace[|es|].log, j, name)
    requires trace[|es|].log[i].answer.Flag?
    ensures
      var log := trace[|es|].log;
      log[j].answer
      == Flag(log[i].answer.flag || exists q: nat :: q < |es| && Marks(es[q], name) && i < |trace[q].log| <= j)
  {
    hide Stepwise, Marks;
    var q := LoggedDuring(env, trace, es, j, |es|);
    LogsGrow(env, trace, es, q + 1, |es|);
    AnsweredLater(env, trace, es, q, i, j, name);
    forall k: nat | k < |es|
      ensures |trace[k].log| <= j <==> k < q + 1
    {
      LogsGrow(env, trace, es, if k <= q then k else q + 1, if k <= q then q else k);
    }
  }

  lemma AnsweredLater(env: Env, trace: seq<Machine>, es: seq<Event>, q: nat, i: nat, j: nat, name: string)
    requires Stepwise(env, trace, es) && q < |es| && |trace[q].log| <= j < |trace[q + 1].log| && i < j
    requires CheckAt(trace[q + 1].log, i, name) && CheckAt(trace[q + 1].log, j, name)
    requires trace[q + 1].log[i].answer.Flag?
    ensures
      var log := trace[q + 1].log;
      log[j].answer == Flag(log[i].answer.flag || MarkedSince(trace, es, q + 1, i, name))
  {
    hide Stepwise, Marks;
    StepwiseLength(env, trace, es);
    var t, t' := trace[q], trace[q + 1];
    var known := StepAdvances(env, trace, es, q);
    TraceRemembers(env, trace, es, q);
    TraceRemembers(env, trace, es, q + 1);
    assert AnswerHolds(t', j, name, |t.log|, known);
    assert RemembersAt(trace, es, q + 1, i, name);
    if i < |t.log| {
      assert CheckAt(t.log, i, name) && t.log[i] == t'.log[i];
      assert RemembersAt(trace, es, q, i, name);
    }
  }
}
