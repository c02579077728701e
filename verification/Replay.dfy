/** Full replay refines incremental execution. */
module Replay {
  import opened Base
  import opened Decisions
  import opened Events
  import opened Histories
  import opened StateManagers
  import opened Engine
  import opened Protocol
  import opened Mirror
  import opened MirrorRun
  import opened Windows

  /** Between two tasks: `f` replayed the first `n` events, `g` lived through them and its decisions were taken. */
  ghost predicate Related(f: Machine, g: Machine, n: int) {
    && SameProgramState(f, g)
    && f.manager.decisions == [] && g.manager.decisions == []
    && f.manager.sideEffects == [] && g.manager.sideEffects == []
    && f.manager.releases == g.manager.releases
    && g.manager.markerIds == {} && (forall x :: x in f.manager.markerIds ==> x <= n)
    && AllAnswerable(g)
  }

  /** The kept executor enters a new window with a tidy state manager. */
  lemma EnteredTidy(f: Machine, g: Machine, h: seq<Event>, r: Round)
    requires Related(f, g, |h|) && ValidRound(r)
    ensures Tidy(Entered(g, Collect(NewEvents(h, r))).manager, BaseId(h, r))
  {
    NewWindow(h, r);
  }

  /** What the live run of a task leaves behind. */
  lemma LiveRunTidy(f: Machine, g: Machine, eg: Env, h: seq<Event>, r: Round)
    requires Related(f, g, |h|) && ValidRound(r)
    ensures
      var w := Collect(NewEvents(h, r));
      var live := ApplyWindow(eg, g, w);
      && live == ApplyEvents(eg, Entered(g, w), w.events)
      && (live.Ok? ==> (
            && Tidy(live.value.manager, BaseId(h, r)) && AllAnswerable(live.value)
            && !live.value.manager.replay))
  {
    var w := Collect(NewEvents(h, r));
    NewWindow(h, r);
    EnteredTidy(f, g, h, r);
    ApplyEventsGrows(eg, Entered(g, w), w.events);
  }

  /** A task handled by a rebuilt executor goes exactly as it would with the kept one. */
  lemma LiveWindowAgrees(ef: Env, f: Machine, g: Machine, h: seq<Event>, r: Round)
    requires Related(f, g, |h|) && ValidRound(r)
    ensures
      var w := Collect(NewEvents(h, r));
      MirrorResults(ApplyWindow(ef, f, w), ApplyWindow(ef, g, w), [], BaseId(h, r), false)
  {
    var w := Collect(NewEvents(h, r));
    NewWindow(h, r);
    ApplyEventsMirrors(ef, ef, Entered(f, w), Entered(g, w), w.events, [], BaseId(h, r));
  }

  /** After the markers of a recorded window are loaded, the replay is set up to follow the live run. */
  lemma LoadedFollows(f: ManagerState, f': ManagerState, g: ManagerState, plan: seq<Entry>, base: int)
    requires Loaded(f, f', plan) && Numbered(plan, base) && NoTerminal(plan)
    requires f.decisions == [] && f.sideEffects == [] && f.replay && f.lastEventId == Some(base)
    requires forall x :: x in f.markerIds ==> x <= base
    requires g.decisions == [] && g.sideEffects == [] && !g.replay && g.lastEventId == Some(base) && g.markerIds == {}
    requires f.localTime == g.localTime && f.releases == g.releases
    requires forall n :: n in ReleasesOf(plan) && n in g.releases ==> g.releases[n]
    ensures ManagersMirror(f', g, plan, base)
  {
    assert plan[0..] == plan;
    forall x | base < x
      ensures x in f'.markerIds <==> x <= base + |plan| && plan[x - base - 1].decision.RecordMarker?
    {
      MarkerIdMembership(plan, base, x);
    }
  }

  lemma MarkerIdMembership(plan: seq<Entry>, base: int, x: int)
    requires Numbered(plan, base) && base < x
    ensures x in MarkerIdsOf(plan) <==> x <= base + |plan| && plan[x - base - 1].decision.RecordMarker?
  {
    if x <= base + |plan| {
      assert plan[x - base - 1].id == x;
    }
  }

  lemma {:induction false} MarkedAreTrue(es: seq<Entry>, releases: Releases)
    requires forall i :: 0 <= i < |es| && IsRelease(es[i]) ==> IsTrue(releases, es[i].decision.details)
    ensures forall n :: n in ReleasesOf(es) ==> IsTrue(releases, n)
  {
    if es != [] {
      MarkedAreTrue(es[1..], releases);
    }
  }

  /** Once the markers of a recorded window are handled, the replay mirrors the live run as it was when it began. */
  lemma LoadedMirrors(ef: Env, eg: Env, f: Machine, g: Machine, h: seq<Event>, r: Round, plan: seq<Entry>)
    requires Related(f, g, |h|) && ValidRound(r) && NoTerminal(plan)
    requires ApplyWindow(eg, g, Collect(NewEvents(h, r))).Ok?
    requires plan == ApplyWindow(eg, g, Collect(NewEvents(h, r))).value.manager.decisions
    ensures
      var w := Collect(NewEvents(h, r));
      var loaded := ApplyEvents(ef, Entered(f, w.(replay := true)), EchoesOf(Marked(plan), BaseId(h, r), r));
      loaded.Ok? && Mirrors(loaded.value, Entered(g, w), plan, BaseId(h, r)) && loaded.value.manager.replay
  {
    var w, base := Collect(NewEvents(h, r)), BaseId(h, r);
    NewWindow(h, r);
    LiveRunTidy(f, g, eg, h, r);
    var f0, g0 := Entered(f, w.(replay := true)), Entered(g, w);
    LoadMarkers(ef, f0, plan, base, r);
    ApplyEventsGrows(eg, g0, w.events);
    MarkedAreTrue(plan, ApplyWindow(eg, g, w).value.manager.releases);
    var f1 := ApplyEvents(ef, f0, EchoesOf(Marked(plan), base, r)).value;
    LoadedFollows(f0.manager, f1.manager, g0.manager, plan, base);
  }

  /** The replay of one recorded window: markers, then the news, which retrace the live run. */
  lemma NewsReplay(ef: Env, eg: Env, f: Machine, g: Machine, h: seq<Event>, r: Round, plan: seq<Entry>)
    requires Related(f, g, |h|) && ValidRound(r) && SameEnv(ef, eg, true) && NoTerminal(plan)
    requires ApplyWindow(eg, g, Collect(NewEvents(h, r))).Ok?
    requires plan == ApplyWindow(eg, g, Collect(NewEvents(h, r))).value.manager.decisions
    ensures
      var w := Collect(NewEvents(h, r));
      var loaded := ApplyEvents(ef, Entered(f, w.(replay := true)), EchoesOf(Marked(plan), BaseId(h, r), r));
      && loaded.Ok?
      && MirrorResults(ApplyEvents(ef, loaded.value, w.events), ApplyWindow(eg, g, w), plan, BaseId(h, r), true)
  {
    hide Related, Mirrors, Tidy, EchoesOf, Marked, ApplyEvents, NewEvents;
    var w, base := Collect(NewEvents(h, r)), BaseId(h, r);
    NewWindow(h, r);
    LiveRunTidy(f, g, eg, h, r);
    LoadedMirrors(ef, eg, f, g, h, r, plan);
    var loaded := ApplyEvents(ef, Entered(f, w.(replay := true)), EchoesOf(Marked(plan), base, r));
    ApplyEventsMirrors(ef, eg, loaded.value, Entered(g, w), w.events, plan, base);
  }

  lemma {:induction false} UnmarkedHasNoMarkers(es: seq<Entry>)
    ensures forall i :: 0 <= i < |Unmarked(es)| ==> !Unmarked(es)[i].decision.RecordMarker?
  {
    if es != [] {
      UnmarkedHasNoMarkers(es[..|es| - 1]);
    }
  }

  lemma {:induction false} UnmarkedReplayable(es: seq<Entry>, r: Round)
    ensures AllReplayable(Unmarked(es), r) <==> AllReplayable(es, r)
    ensures FirstFault(Unmarked(es), r) == FirstFault(es, r)
  {
    hide AllReplayable, Replayable, FirstFault, FaultOf;
    if es != [] {
      var front, last := es[..|es| - 1], es[|es| - 1];
      UnmarkedReplayable(front, r);
      FaultsLast(es, r);
      if last.decision.RecordMarker? {
        assert Unmarked(es) == Unmarked(front);
        MarkerHasNoFault(last, r);
      } else {
        assert Unmarked(es)[..|Unmarked(es)| - 1] == Unmarked(front);
        FaultsLast(Unmarked(es), r);
      }
    }
    NoFault(es, r);
    NoFault(Unmarked(es), r);
  }

  lemma MarkerHasNoFault(e: Entry, r: Round)
    requires e.decision.RecordMarker?
    ensures FaultOf(e, r).None?
  {
  }

  /** Replay of one recorded window succeeds exactly when its decisions are replayable, and then ends where the kept
      executor stands once the server has taken them. */
  lemma WindowReplay(ef: Env, eg: Env, f: Machine, g: Machine, h: seq<Event>, r: Round, plan: seq<Entry>)
    requires Related(f, g, |h|) && ValidRound(r) && SameEnv(ef, eg, true) && NoTerminal(plan)
    requires ApplyWindow(eg, g, Collect(NewEvents(h, r))).Ok?
    requires plan == ApplyWindow(eg, g, Collect(NewEvents(h, r))).value.manager.decisions
    ensures
      var live := ApplyWindow(eg, g, Collect(NewEvents(h, r))).value;
      var replayed := ApplyWindow(ef, f, Collect(Segment(h, r, plan)));
      && (replayed.Ok? <==> AllReplayable(plan, r))
      && (replayed.Err? ==> FirstFault(plan, r) == Some(replayed.error))
      && (replayed.Ok? ==> Related(replayed.value, Accepted(live), |h + Segment(h, r, plan)|))
  {
    hide ApplyEvents, ApplyWindow, Collect, EchoesOf, Marked, Unmarked, CancelEvents, Mirrors, Tidy, Related, Entered,
         Accepted, AllReplayable, Segment;
    var w, base := Collect(NewEvents(h, r)), BaseId(h, r);
    var live := ApplyWindow(eg, g, w).value;
    var f0 := Entered(f, w.(replay := true));
    NewsReplay(ef, eg, f, g, h, r, plan);
    var f1 := ApplyEvents(ef, f0, EchoesOf(Marked(plan), base, r)).value;
    var f2 := ApplyEvents(ef, f1, w.events).value;
    LiveRunTidy(f, g, eg, h, r);
    EchoesReplay(ef, f1, f2, live, w.events, plan, base, r);
    ReplayedShape(ef, f, f1, h, r, plan);
    SegmentLength(h, r, plan);
    var replayed := ApplyWindow(ef, f, Collect(Segment(h, r, plan)));
    if replayed.Ok? {
      RelatedLater(replayed.value, Accepted(live), base + |plan|, |h + Segment(h, r, plan)|);
    }
  }

  lemma RelatedLater(f: Machine, g: Machine, n: int, later: int)
    requires Related(f, g, n) && n <= later
    ensures Related(f, g, later)
  {
  }

  lemma SegmentLength(h: seq<Event>, r: Round, es: seq<Entry>)
    ensures |h + Segment(h, r, es)| == BaseId(h, r) + |es| + r.cancels
  {
  }

  /** The replay window of a recorded task: load the markers, then apply the news and the echoes. */
  lemma ReplayedShape(ef: Env, f: Machine, f1: Machine, h: seq<Event>, r: Round, plan: seq<Entry>)
    requires ValidRound(r) && Numbered(plan, BaseId(h, r))
    requires
      var w := Collect(NewEvents(h, r));
      ApplyEvents(ef, Entered(f, w.(replay := true)), EchoesOf(Marked(plan), BaseId(h, r), r)) == Ok(f1)
    ensures
      var w, base := Collect(NewEvents(h, r)), BaseId(h, r);
      var echoes, cancels := EchoesOf(Unmarked(plan), base, r), CancelEvents(base + |plan| + 1, r);
      ApplyWindow(ef, f, Collect(Segment(h, r, plan))) == ApplyEvents(ef, f1, w.events + (echoes + cancels))
  {
    hide Collect, ApplyEvents, EchoesOf, Marked, Unmarked, CancelEvents, Segment;
    RecordedWindow(h, r, plan);
  }

  /** The tail of a replayed window: the echoes empty the decision list. */
  lemma EchoesReplay(ef: Env, f1: Machine, f2: Machine, live: Machine, news: seq<Event>, plan: seq<Entry>, base: int,
          r: Round)
    requires ApplyEvents(ef, f1, news) == Ok(f2)
    requires Mirrors(f2, live, plan, base) && f2.manager.replay && live.manager.decisions == plan && AllAnswerable(live)
    ensures
      var echoes, cancels := EchoesOf(Unmarked(plan), base, r), CancelEvents(base + |plan| + 1, r);
      var result := ApplyEvents(ef, f1, news + (echoes + cancels));
      && (result.Ok? <==> AllReplayable(plan, r))
      && (result.Err? ==> FirstFault(plan, r) == Some(result.error))
      && (result.Ok? ==> Related(result.value, Accepted(live), base + |plan|))
  {
    hide *;
    var echoes, cancels := EchoesOf(Unmarked(plan), base, r), CancelEvents(base + |plan| + 1, r);
    ApplyEventsAppend(ef, f1, news, echoes + cancels);
    ApplyEventsAppend(ef, f2, echoes, cancels);
    AtTheEnd(f2, live, plan, base);
    UnmarkedReplayable(plan, r);
    assert Unmarked(plan) + [] == Unmarked(plan);
    MatchEchoes(ef, f2, Unmarked(plan), [], base, r);
    var matched := ApplyEvents(ef, f2, echoes);
    if matched.Ok? {
      CancelsOnly(base + |plan| + 1, r);
      CancelsAreInert(ef, matched.value, cancels);
      QueueEmptied(f2, matched.value, live, plan, base);
    }
  }

  lemma CancelsOnly(first: int, r: Round)
    ensures
      forall i :: 0 <= i < |CancelEvents(first, r)| ==>
        CancelEvents(first, r)[i].kind == WorkflowExecutionCancelRequested
  {
  }

  /** A replayed window whose commands are still to come awaits exactly the decisions without markers. */
  lemma AtTheEnd(f: Machine, live: Machine, plan: seq<Entry>, base: int)
    requires Mirrors(f, live, plan, base) && f.manager.replay && live.manager.decisions == plan && AllAnswerable(live)
    ensures f.manager.decisions == Unmarked(plan) && AllAnswerable(f) && NoTerminal(Unmarked(plan))
    ensures forall i :: 0 <= i < |Unmarked(plan)| ==> !Unmarked(plan)[i].decision.RecordMarker?
  {
    UnmarkedHasNoMarkers(plan);
    UnmarkedNoTerminal(plan);
  }

  lemma QueueEmptied(f: Machine, f': Machine, live: Machine, plan: seq<Entry>, base: int)
    requires Mirrors(f, live, plan, base) && f.manager.replay && live.manager.decisions == plan && AllAnswerable(live)
    requires SameExceptQueue(f, f') && f'.manager.decisions == []
    ensures Related(f', Accepted(live), base + |plan|)
  {
    FollowedToTheEnd(f.manager, live.manager, plan, base);
    hide Follows;
  }

  lemma FollowedToTheEnd(f: ManagerState, g: ManagerState, plan: seq<Entry>, base: int)
    requires Follows(f, g, plan, base) && g.decisions == plan
    ensures f.sideEffects == [] && f.releases == g.releases
    ensures forall x :: x in f.markerIds ==> x <= base + |plan|
  {
    assert plan[|plan|..] == [];
    assert f.releases.Keys == g.releases.Keys;
  }

  // ----- Histories -----

  /** The segment of one round is one window, closed by its completion event. */
  lemma SegmentIsOneWindow(h: seq<Event>, r: Round, es: seq<Entry>)
    requires ValidRound(r) && NoTerminal(es)
    ensures
      var s := Segment(h, r, es);
      && s != [] && OpensWindow(s[0].kind) && Split(s) == [s] && AllDecided(s)
  {
    var news, closing := NewEvents(h, r), Completion(h, r, es);
    var s := news + closing;
    UntilCompletedAt(news, closing);
    var n := |news| + 1;
    assert s[n..] == closing[1..];
    assert s[n - 1] == closing[0];
    AllCommands(closing[1..]);
    assert WindowLength(s) == |s|;
    assert s[..|s|] == s && s[|s|..] == [];
  }

  lemma {:induction false} UntilCompletedAt(a: seq<Event>, b: seq<Event>)
    requires forall i :: 0 <= i < |a| ==> !a[i].kind.DecisionTaskCompleted?
    requires b != [] && b[0].kind.DecisionTaskCompleted?
    ensures UntilCompleted(a + b) == |a| + 1
  {
    if a == [] {
      assert a + b == b;
    } else {
      assert (a + b)[1..] == a[1..] + b;
      UntilCompletedAt(a[1..], b);
    }
  }

  lemma {:induction false} AllCommands(es: seq<Event>)
    requires forall i :: 0 <= i < |es| ==> es[i].kind.Command()
    ensures CommandRun(es) == |es|
  {
    if es != [] {
      AllCommands(es[1..]);
    }
  }

  lemma ApplyWindowsSnoc(env: Env, m: Machine, segments: seq<seq<Event>>, s: seq<Event>)
    ensures
      var before := ApplyWindows(env, m, segments);
      ApplyWindows(env, m, segments + [s]) == (if before.Ok? then ApplyWindow(env, before.value,
          Collect(s)) else before)
  {
    assert (segments + [s])[..|segments|] == segments;
  }

  /** The windows of a history that the protocol continues are those it had and its rounds, and later events never
      change them. */
  lemma {:induction false} HistoryWindows(start: World, code: Code, budget: nat, rounds: seq<Round>, next: seq<Event>)
    requires AllDecided(start.history) && ValidRounds(rounds)
    requires KeptRun(start, code, budget, rounds).Ok?
        && NoTerminal(KeptRun(start, code, budget, rounds).value.issued)
    requires next == [] || OpensWindow(next[0].kind)
    ensures
      var h := KeptRun(start, code, budget, rounds).value.history;
      && AllDecided(h) && Split(h + next) == Split(h) + Split(next)
      && Split(h) == Split(start.history) + Segments(start, code, budget, rounds)
    decreases |rounds|
  {
    hide *;
    var h := KeptRun(start, code, budget, rounds).value.history;
    if rounds == [] {
      NoRounds(start, code, budget);
    } else {
      FrontValid(rounds);
      LastRound(start, code, budget, rounds);
      SegmentsLast(start, code, budget, rounds);
      var front, r := rounds[..|rounds| - 1], rounds[|rounds| - 1];
      var prior, run := KeptRun(start, code, budget, front).value, KeptRun(start, code, budget, rounds).value;
      var s := Segment(prior.history, r, run.issued);
      SegmentIsOneWindow(prior.history, r, run.issued);
      HistoryWindows(start, code, budget, front, s);
      AllDecidedAppend(prior.history, s);
      ConcatAssociative(Split(start.history), Segments(start, code, budget, front), [s]);
    }
    SplitAppend(h, next);
  }

  lemma NoRounds(start: World, code: Code, budget: nat)
    ensures KeptRun(start, code, budget, []) == Ok(start) && Segments(start, code, budget, []) == []
    ensures Split(start.history) == Split(start.history) + Segments(start, code, budget, [])
  {
  }

  lemma FrontValid(rounds: seq<Round>)
    requires rounds != [] && ValidRounds(rounds)
    ensures ValidRounds(rounds[..|rounds| - 1]) && ValidRound(rounds[|rounds| - 1])
  {
    hide ValidRound;
  }

  /** The stretch of history that each round wrote. */
  function Segments(start: World, code: Code, budget: nat, rounds: seq<Round>): seq<seq<Event>>
    requires KeptRun(start, code, budget, rounds).Ok?
  {
    if rounds == [] then []
    else
      var front := rounds[..|rounds| - 1];
      var prior := KeptRun(start, code, budget, front).value;
      Segments(start, code, budget, front)
      + [Segment(prior.history, rounds[|rounds| - 1], KeptRun(start, code, budget, rounds).value.issued)]
  }

  lemma SegmentsLast(start: World, code: Code, budget: nat, rounds: seq<Round>)
    requires rounds != [] && KeptRun(start, code, budget, rounds).Ok?
    ensures
      var front, r := rounds[..|rounds| - 1], rounds[|rounds| - 1];
      && KeptRun(start, code, budget, front).Ok?
      && var prior, kept := KeptRun(start, code, budget, front).value, KeptRun(start, code, budget, rounds).value;
         Segments(start, code, budget, rounds)
         == Segments(start, code, budget, front) + [Segment(prior.history, r, kept.issued)]
  {
    LastRound(start, code, budget, rounds);
    hide KeptRun, Segment;
  }

  /** How the last round adds to what can be replayed. */
  lemma LastReplayable(start: World, code: Code, budget: nat, rounds: seq<Round>)
    requires rounds != [] && KeptRun(start, code, budget, rounds).Ok?
    ensures
      var front, r := rounds[..|rounds| - 1], rounds[|rounds| - 1];
      var issued, earlier := KeptRun(start, code, budget, rounds).value.issued, RunFault(start, code, budget, front);
      && (ReplayableRun(start, code, budget, rounds)
          <==> AllReplayable(issued, r) && ReplayableRun(start, code, budget, front))
      && RunFault(start, code, budget, rounds) == if earlier.Some? then earlier else FirstFault(issued, r)
  {
    hide KeptRun, AllReplayable, FirstFault;
  }

  /** Replaying a recorded history ends with replaying its last window. */
  lemma ReplayLast(start: World, code: Code, budget: nat, rounds: seq<Round>, env: Env)
    requires AllDecided(start.history)
    requires ValidRounds(rounds) && rounds != [] && KeptRun(start, code, budget, rounds).Ok?
    requires NoTerminal(KeptRun(start, code, budget, rounds).value.issued)
    ensures
      var front, r, kept := rounds[..|rounds| - 1], rounds[|rounds| - 1], KeptRun(start, code, budget, rounds).value;
      && KeptRun(start, code, budget, front).Ok?
      && var prior := KeptRun(start, code, budget, front).value;
         var before := Execute(env, prior.history);
         Execute(env, kept.history)
         == if before.Ok? then
              ApplyWindow(env, before.value, Collect(Segment(prior.history, r, kept.issued)))
            else before
  {
    hide *;
    FrontValid(rounds);
    LastRound(start, code, budget, rounds);
    var front, r := rounds[..|rounds| - 1], rounds[|rounds| - 1];
    var prior, kept := KeptRun(start, code, budget, front).value, KeptRun(start, code, budget, rounds).value;
    var s := Segment(prior.history, r, kept.issued);
    SegmentIsOneWindow(prior.history, r, kept.issued);
    HistoryWindows(start, code, budget, front, s);
    ExecuteOneMore(env, prior.history, s);
  }

  /** Executing a history with one window more. */
  lemma ExecuteOneMore(env: Env, h: seq<Event>, s: seq<Event>)
    requires Split(h + s) == Split(h) + Split(s) && Split(s) == [s]
    ensures
      Execute(env, h + s)
      == if Execute(env, h).Ok? then ApplyWindow(env, Execute(env, h).value, Collect(s)) else Execute(env, h)
  {
    hide ApplyWindows, ApplyWindow, Collect, Split;
    ApplyWindowsSnoc(env, FRESH_MACHINE, Split(h), s);
  }

  // ----- Replay of whole histories -----

  /** A point at which a worker may take over: whoever rebuilds its history, with any oracle, ends where its executor
      stands once the server has taken the decisions. */
  ghost predicate Resumable(start: World, code: Code, budget: nat) {
    && AllDecided(start.history) && AllRecorded(Split(start.history))
    && forall env: Env :: env.code == code && env.budget == budget ==> Resumes(start, env)
  }

  ghost predicate Resumes(start: World, env: Env) {
    && Execute(env, start.history).Ok?
    && Related(Execute(env, start.history).value, Accepted(start.machine), |start.history|)
  }

  lemma StartResumable(code: Code, budget: nat)
    ensures Resumable(START, code, budget)
  {
    forall env: Env | env.code == code && env.budget == budget
      ensures Resumes(START, env)
    {
      assert Execute(env, START.history) == Ok(FRESH_MACHINE);
    }
  }

  lemma ResumableParts(start: World, env: Env)
    requires Resumable(start, env.code, env.budget)
    ensures AllDecided(start.history) && AllRecorded(Split(start.history))
    ensures Fit(start.machine) && Execute(env, start.history).Ok?
    ensures Related(Execute(env, start.history).value, Accepted(start.machine), |start.history|)
  {
    hide Execute, AllDecided, AllRecorded;
    assert Resumes(start, env);
  }

  /** Replay of the last round, on top of the replay of all others. */
  lemma ReplayRound(start: World, code: Code, budget: nat, rounds: seq<Round>, env: Env)
    requires AllDecided(start.history)
    requires ValidRounds(rounds) && rounds != [] && env.code == code && env.budget == budget
    requires KeptRun(start, code, budget, rounds).Ok? && NoTerminal(KeptRun(start, code, budget, rounds).value.issued)
    requires KeptRun(start, code, budget, rounds[..|rounds| - 1]).Ok?
    requires
      var prior := KeptRun(start, code, budget, rounds[..|rounds| - 1]).value;
      var before := Execute(env, prior.history);
      before.Ok? ==> Related(before.value, Accepted(prior.machine), |prior.history|)
    ensures
      var front, r, kept := rounds[..|rounds| - 1], rounds[|rounds| - 1], KeptRun(start, code, budget, rounds).value;
      var prior := KeptRun(start, code, budget, front).value;
      var before, replayed := Execute(env, prior.history), Execute(env, kept.history);
      if before.Err? then replayed == before
      else
        && (replayed.Ok? <==> AllReplayable(kept.issued, r))
        && (replayed.Err? ==> FirstFault(kept.issued, r) == Some(replayed.error))
        && (replayed.Ok? ==> Related(replayed.value, Accepted(kept.machine), |kept.history|))
  {
    hide *;
    var front, r := rounds[..|rounds| - 1], rounds[|rounds| - 1];
    var eg := Env(code, r.oracle, budget);
    FrontValid(rounds);
    SameProgram(env, eg);
    LastRound(start, code, budget, rounds);
    ReplayLast(start, code, budget, rounds, env);
    var prior, kept := KeptRun(start, code, budget, front).value, KeptRun(start, code, budget, rounds).value;
    var before := Execute(env, prior.history);
    if before.Ok? {
      WindowReplay(env, eg, before.value, Accepted(prior.machine), prior.history, r, kept.issued);
    }
  }

  lemma SameProgram(ef: Env, eg: Env)
    requires ef.code == eg.code && ef.budget == eg.budget
    ensures SameEnv(ef, eg, true)
  {
  }

  /** A rebuilt executor reaches the kept executor's state exactly when every recorded decision can be replayed;
      otherwise it raises what the first decision that cannot be replayed makes it raise. */
  lemma {:induction false} ReplayFrom(start: World, code: Code, budget: nat, rounds: seq<Round>, env: Env)
    requires Resumable(start, code, budget)
    requires ValidRounds(rounds) && env.code == code && env.budget == budget
    requires KeptRun(start, code, budget, rounds).Ok? && NoTerminal(KeptRun(start, code, budget, rounds).value.issued)
    ensures
      var kept := KeptRun(start, code, budget, rounds).value;
      var replayed := Execute(env, kept.history);
      && (replayed.Ok? <==> ReplayableRun(start, code, budget, rounds))
      && (replayed.Ok? <==> RunFault(start, code, budget, rounds).None?)
      && (replayed.Err? ==> RunFault(start, code, budget, rounds) == Some(replayed.error))
      && (replayed.Ok? ==> Related(replayed.value, Accepted(kept.machine), |kept.history|))
    decreases |rounds|
  {
    hide *;
    ResumableParts(start, env);
    if rounds == [] {
      NothingToFault(start, code, budget);
    } else {
      FrontValid(rounds);
      LastRound(start, code, budget, rounds);
      LastReplayable(start, code, budget, rounds);
      NoFault(KeptRun(start, code, budget, rounds).value.issued, rounds[|rounds| - 1]);
      ReplayFrom(start, code, budget, rounds[..|rounds| - 1], env);
      ReplayRound(start, code, budget, rounds, env);
    }
  }

  lemma NothingToFault(start: World, code: Code, budget: nat)
    ensures KeptRun(start, code, budget, []) == Ok(start)
    ensures ReplayableRun(start, code, budget, []) && RunFault(start, code, budget, []).None?
  {
  }

  /** The same from the beginning of the workflow. */
  lemma ReplayHistory(code: Code, budget: nat, rounds: seq<Round>, env: Env)
    requires ValidRounds(rounds) && env.code == code && env.budget == budget
    requires KeptRun(START, code, budget, rounds).Ok? && NoTerminal(KeptRun(START, code, budget, rounds).value.issued)
    ensures
      var kept := KeptRun(START, code, budget, rounds).value;
      var replayed := Execute(env, kept.history);
      && (replayed.Ok? <==> ReplayableRun(START, code, budget, rounds))
      && (replayed.Err? ==> RunFault(START, code, budget, rounds) == Some(replayed.error))
      && (replayed.Ok? ==> Related(replayed.value, Accepted(kept.machine), |kept.history|))
  {
    hide *;
    StartResumable(code, budget);
    ReplayFrom(START, code, budget, rounds, env);
  }

  /** The last window of a task's history is the newest one, live. */
  lemma TaskWindows(start: World, code: Code, budget: nat, rounds: seq<Round>, r: Round, env: Env)
    requires AllDecided(start.history) && ValidRounds(rounds) && ValidRound(r)
    requires KeptRun(start, code, budget, rounds).Ok? && NoTerminal(KeptRun(start, code, budget, rounds).value.issued)
    ensures
      var h := KeptRun(start, code, budget, rounds).value.history;
      var before := Execute(env, h);
      Execute(env, h + NewEvents(h, r))
      == if before.Ok? then ApplyWindow(env, before.value, Collect(NewEvents(h, r))) else before
  {
    hide *;
    var h := KeptRun(start, code, budget, rounds).value.history;
    OneLiveWindow(h, r);
    HistoryWindows(start, code, budget, rounds, NewEvents(h, r));
    ExecuteOneMore(env, h, NewEvents(h, r));
  }

  lemma OneLiveWindow(h: seq<Event>, r: Round)
    requires ValidRound(r)
    ensures Split(NewEvents(h, r)) == [NewEvents(h, r)]
    ensures OpensWindow(NewEvents(h, r)[0].kind)
  {
    var s := NewEvents(h, r);
    NeverCompleted(s);
    assert s[..|s|] == s && s[|s|..] == [];
  }

  /** A task's history is cut exactly along the decision tasks: one replay window for each completed one, holding the
      commands that very task issued, and one live window for the task in hand. */
  lemma WindowsAreTasks(code: Code, budget: nat, rounds: seq<Round>, r: Round)
    requires ValidRounds(rounds) && ValidRound(r)
    requires KeptRun(START, code, budget, rounds).Ok? && NoTerminal(KeptRun(START, code, budget, rounds).value.issued)
    ensures
      var h, segments := KeptRun(START, code, budget, rounds).value.history, Segments(START, code, budget, rounds);
      && Split(h + NewEvents(h, r)) == segments + [NewEvents(h, r)]
      && !Collect(NewEvents(h, r)).replay
      && AllRecorded(segments)
  {
    hide *;
    var h := KeptRun(START, code, budget, rounds).value.history;
    StartDecided();
    OneLiveWindow(h, r);
    HistoryWindows(START, code, budget, rounds, NewEvents(h, r));
    NewWindow(h, r);
    StartFit();
    SegmentsAreReplay(START, code, budget, rounds);
  }

  lemma StartDecided()
    ensures AllDecided(START.history) && Split(START.history) == []
  {
  }

  lemma {:induction false} SegmentsAreReplay(start: World, code: Code, budget: nat, rounds: seq<Round>)
    requires Fit(start.machine) && ValidRounds(rounds) && KeptRun(start, code, budget, rounds).Ok?
    ensures AllRecorded(Segments(start, code, budget, rounds))
    decreases |rounds|
  {
    hide *;
    if rounds == [] {
      NoRounds(start, code, budget);
      NothingRecorded();
    } else {
      var front, r := rounds[..|rounds| - 1], rounds[|rounds| - 1];
      FrontValid(rounds);
      LastRound(start, code, budget, rounds);
      SegmentsAreReplay(start, code, budget, front);
      SegmentsLast(start, code, budget, rounds);
      var prior, kept := KeptRun(start, code, budget, front).value, KeptRun(start, code, budget, rounds).value;
      KeptRunTidy(start, code, budget, rounds);
      TidyDecisions(kept.machine.manager, BaseId(prior.history, r));
      RecordedWindow(prior.history, r, kept.issued);
      AllRecordedAppend(Segments(start, code, budget, front), [Segment(prior.history, r, kept.issued)]);
    }
  }

  lemma AllRecordedAppend(a: seq<seq<Event>>, b: seq<seq<Event>>)
    requires AllRecorded(a) && forall s :: s in b ==> Collect(s).replay
    ensures AllRecorded(a + b)
  {
    hide Collect;
  }

  lemma NothingRecorded()
    ensures AllRecorded([])
  {
  }

  lemma {:induction false} NeverCompleted(s: seq<Event>)
    requires forall i :: 0 <= i < |s| ==> !s[i].kind.DecisionTaskCompleted?
    ensures UntilCompleted(s) == |s| && WindowLength(s) == |s|
  {
    if s != [] {
      NeverCompleted(s[1..]);
    }
  }

  // ----- The main theorem -----

  /** The same history and the same decisions; the executors agree on handlers, futures, fibers, answers and releases.
      */
  ghost predicate SameWorld(stateless: World, kept: World) {
    && stateless.history == kept.history
    && stateless.issued == kept.issued
    && SameProgramState(stateless.machine, kept.machine)
    && stateless.machine.manager.releases == kept.machine.manager.releases
  }

  ghost predicate SameResult(stateless: Result<World>, kept: Result<World>) {
    match (stateless, kept)
    case (Ok(x), Ok(y)) => SameWorld(x, y)
    case (Err(x), Err(y)) => x == y
    case _ => false
  }

  /** Workers that rebuild everything from history are indistinguishable from one that never forgets, from any point at
      which a worker may take over. */
  lemma {:induction false} RefinesFrom(start: World, code: Code, budget: nat, rounds: seq<Round>)
    requires Resumable(start, code, budget) && ValidRounds(rounds) && rounds != []
    ensures
      var front := rounds[..|rounds| - 1];
      var kept, stateless := KeptRun(start, code, budget, rounds), StatelessRun(start, code, budget, rounds);
      && (ReplayableRun(start, code, budget, front) ==> SameResult(stateless, kept))
      && (kept.Ok? && !ReplayableRun(start, code, budget, front) ==>
            stateless.Err? && RunFault(start, code, budget, front) == Some(stateless.error))
    decreases |rounds|
  {
    hide Resumable;
    var front, r := rounds[..|rounds| - 1], rounds[|rounds| - 1];
    var prior := KeptRun(start, code, budget, front);
    FrontValid(rounds);
    if front != [] {
      RefinesFrom(start, code, budget, front);
    }
    if prior.Ok? && NoTerminal(prior.value.issued) {
      var env := Env(code, r.oracle, budget);
      ReplayFrom(start, code, budget, front, env);
      ResumableParts(start, env);
      TaskWindows(start, code, budget, front, r, env);
      var h := prior.value.history;
      var replayed := Execute(env, h);
      if replayed.Ok? {
        LiveWindowAgrees(env, replayed.value, Accepted(prior.value.machine), h, r);
      }
    }
  }

  /** From the beginning of the workflow, for all code and all rounds: as long as every recorded decision can be
      replayed, the same worlds and the same errors; once a decision that cannot be replayed is recorded, no later task
      can ever be completed. */
  lemma ReplayRefinesIncremental(code: Code, budget: nat, rounds: seq<Round>)
    requires ValidRounds(rounds) && rounds != []
    ensures
      var front := rounds[..|rounds| - 1];
      var kept, stateless := KeptRun(START, code, budget, rounds), StatelessRun(START, code, budget, rounds);
      && (ReplayableRun(START, code, budget, front) ==> SameResult(stateless, kept))
      && (kept.Ok? && !ReplayableRun(START, code, budget, front) ==>
            stateless.Err? && RunFault(START, code, budget, front) == Some(stateless.error))
  {
    hide *;
    StartResumable(code, budget);
    RefinesFrom(START, code, budget, rounds);
  }

  /** A live run never trips the determinism check. */
  lemma {:induction false} KeptRunNeverAlarms(start: World, code: Code, budget: nat, rounds: seq<Round>)
    requires ValidRounds(rounds)
    ensures KeptRun(start, code, budget, rounds) != Err(NonDeterministicWorkflow)
    decreases |rounds|
  {
    if rounds != [] {
      var front, r := rounds[..|rounds| - 1], rounds[|rounds| - 1];
      KeptRunNeverAlarms(start, code, budget, front);
      var prior := KeptRun(start, code, budget, front);
      if prior.Ok? {
        var w := Collect(NewEvents(prior.value.history, r));
        NewWindow(prior.value.history, r);
        ApplyEventsGrows(Env(code, r.oracle, budget), Entered(Accepted(prior.value.machine), w), w.events);
      }
    }
  }

  /** No false alarm: deterministic code whose recorded decisions can be replayed is never called non-deterministic. */
  lemma NoAlarmFrom(start: World, code: Code, budget: nat, rounds: seq<Round>)
    requires Resumable(start, code, budget) && ValidRounds(rounds)
    requires rounds != [] && ReplayableRun(start, code, budget, rounds[..|rounds| - 1])
    ensures StatelessRun(start, code, budget, rounds) != Err(NonDeterministicWorkflow)
  {
    hide Resumable, KeptRun, StatelessRun, ReplayableRun, SameWorld;
    RefinesFrom(start, code, budget, rounds);
    KeptRunNeverAlarms(start, code, budget, rounds);
  }

  lemma NoFalseAlarm(code: Code, budget: nat, rounds: seq<Round>)
    requires ValidRounds(rounds) && rounds != [] && ReplayableRun(START, code, budget, rounds[..|rounds| - 1])
    ensures StatelessRun(START, code, budget, rounds) != Err(NonDeterministicWorkflow)
  {
    hide *;
    StartResumable(code, budget);
    NoAlarmFrom(START, code, budget, rounds);
  }

  // ----- Predicted ids -----

  /** The executor with which a run begins has met no recorded marker. */
  ghost predicate Fit(m: Machine) {
    m.manager.markerIds == {} && AllAnswerable(m)
  }

  lemma StartFit()
    ensures Fit(START.machine)
  {
  }

  /** The state of the kept executor in every reachable world. */
  lemma {:induction false} KeptRunTidy(start: World, code: Code, budget: nat, rounds: seq<Round>)
    requires Fit(start.machine) && ValidRounds(rounds) && rounds != [] && KeptRun(start, code, budget, rounds).Ok?
    ensures
      var prior := KeptRun(start, code, budget, rounds[..|rounds| - 1]).value;
      var kept := KeptRun(start, code, budget, rounds).value;
      && Tidy(kept.machine.manager, BaseId(prior.history, rounds[|rounds| - 1]))
      && Fit(kept.machine)
    decreases |rounds|
  {
    hide *;
    var front, r := rounds[..|rounds| - 1], rounds[|rounds| - 1];
    FrontValid(rounds);
    LastRound(start, code, budget, rounds);
    if front == [] {
      NoRounds(start, code, budget);
    } else {
      KeptRunTidy(start, code, budget, front);
    }
    LiveRoundTidy(Env(code, r.oracle, budget), KeptRun(start, code, budget, front).value, r);
  }

  lemma LiveRoundTidy(env: Env, prior: World, r: Round)
    requires Fit(prior.machine) && ValidRound(r)
    ensures
      var m := ApplyWindow(env, Accepted(prior.machine), Collect(NewEvents(prior.history, r)));
      m.Ok? ==>
        Tidy(m.value.manager, BaseId(prior.history, r)) && Fit(m.value)
  {
    var w := Collect(NewEvents(prior.history, r));
    NewWindow(prior.history, r);
    ApplyEventsGrows(env, Entered(Accepted(prior.machine), w), w.events);
  }

  /** In every world the history numbers its events from 1. */
  lemma {:induction false} HistoryConsecutive(code: Code, budget: nat, rounds: seq<Round>)
    requires KeptRun(START, code, budget, rounds).Ok?
    ensures Consecutive(KeptRun(START, code, budget, rounds).value.history)
    decreases |rounds|
  {
    if rounds != [] {
      var front, r := rounds[..|rounds| - 1], rounds[|rounds| - 1];
      HistoryConsecutive(code, budget, front);
      var issued := KeptRun(START, code, budget, rounds).value.issued;
      SegmentConsecutive(KeptRun(START, code, budget, front).value.history, r, issued);
    }
  }

  /** The decisions of the last task carry consecutive ids, a terminal one only at the end, and the server's command
      event for each decision sits in the history at exactly the id that was predicted for it. */
  lemma IdsArePredicted(code: Code, budget: nat, rounds: seq<Round>)
    requires ValidRounds(rounds) && rounds != [] && KeptRun(START, code, budget, rounds).Ok?
    ensures
      var r := rounds[|rounds| - 1];
      var kept := KeptRun(START, code, budget, rounds).value;
      var base := BaseId(KeptRun(START, code, budget, rounds[..|rounds| - 1]).value.history, r);
      && Consecutive(kept.history)
      && Numbered(kept.issued, base) && TerminalLast(kept.issued)
      && (forall i :: 0 <= i < |kept.issued| ==>
            var e := kept.issued[i];
            0 < e.id <= |kept.history| && kept.history[e.id - 1] == Event(e.id, ReplyTo(e, base, r)))
  {
    hide *;
    LastRound(START, code, budget, rounds);
    StartFit();
    KeptRunTidy(START, code, budget, rounds);
    HistoryConsecutive(code, budget, rounds);
    var prior := KeptRun(START, code, budget, rounds[..|rounds| - 1]).value;
    var kept := KeptRun(START, code, budget, rounds).value;
    TidyDecisions(kept.machine.manager, BaseId(prior.history, rounds[|rounds| - 1]));
    SegmentEchoes(prior.history, rounds[|rounds| - 1], kept.issued);
  }

  lemma TidyDecisions(m: ManagerState, base: int)
    requires Tidy(m, base)
    ensures Numbered(m.decisions, base) && TerminalLast(m.decisions)
  {
  }

  lemma SegmentConsecutive(h: seq<Event>, r: Round, es: seq<Entry>)
    requires Consecutive(h)
    ensures Consecutive(h + Segment(h, r, es))
  {
    hide Replies, CancelRequests;
  }

  lemma SegmentEchoes(h: seq<Event>, r: Round, es: seq<Entry>)
    requires Numbered(es, BaseId(h, r))
    ensures
      var h', base := h + Segment(h, r, es), BaseId(h, r);
      forall i :: 0 <= i < |es| ==> 0 < es[i].id <= |h'| && h'[es[i].id - 1] == Event(es[i].id, ReplyTo(es[i], base, r))
  {
    var base := BaseId(h, r);
    hide Segment, ReplyTo;
    SegmentAt(h, r, es);
    forall i | 0 <= i < |es|
      ensures 0 < es[i].id <= |h + Segment(h, r, es)|
      ensures (h + Segment(h, r, es))[es[i].id - 1] == Event(es[i].id, ReplyTo(es[i], base, r))
    {
      assert es[i].id - 1 == base + i;
    }
  }

  // ----- Stable answers -----

  lemma {:induction false} KeptLogGrows(start: World, code: Code, budget: nat, rounds: seq<Round>, n: nat)
    requires ValidRounds(rounds) && n <= |rounds| && KeptRun(start, code, budget, rounds).Ok?
    ensures KeptRun(start, code, budget, rounds[..n]).Ok?
    ensures
      KeptRun(start, code, budget, rounds[..n]).value.machine.log
      <= KeptRun(start, code, budget, rounds).value.machine.log
    decreases |rounds|
  {
    hide *;
    if n == |rounds| {
      assert rounds[..n] == rounds;
    } else {
      var front, r := rounds[..|rounds| - 1], rounds[|rounds| - 1];
      FrontValid(rounds);
      LastRound(start, code, budget, rounds);
      KeptLogGrows(start, code, budget, front, n);
      assert front[..n] == rounds[..n];
      var prior := KeptRun(start, code, budget, front).value;
      LiveLogGrows(Env(code, r.oracle, budget), prior, r);
    }
  }

  lemma LiveLogGrows(env: Env, prior: World, r: Round)
    requires ValidRound(r)
    ensures
      var m := ApplyWindow(env, Accepted(prior.machine), Collect(NewEvents(prior.history, r)));
      m.Ok? ==> prior.machine.log <= m.value.log
  {
    hide Keeps, AllAnswerable;
    var w := Collect(NewEvents(prior.history, r));
    NewWindow(prior.history, r);
    ApplyEventsGrows(env, Entered(Accepted(prior.machine), w), w.events);
  }

  lemma StableFrom(start: World, code: Code, budget: nat, rounds: seq<Round>, n: nat)
    requires Resumable(start, code, budget) && ValidRounds(rounds) && n <= |rounds| && rounds != []
    requires KeptRun(start, code, budget, rounds).Ok? && ReplayableRun(start, code, budget, rounds[..|rounds| - 1])
    ensures StatelessRun(start, code, budget, rounds).Ok? && StatelessRun(start, code, budget, rounds[..n]).Ok?
    ensures
      StatelessRun(start, code, budget, rounds[..n]).value.machine.log
      <= StatelessRun(start, code, budget, rounds).value.machine.log
  {
    hide *;
    var front, part := rounds[..|rounds| - 1], rounds[..n];
    RefinesFrom(start, code, budget, rounds);
    SameLogs(StatelessRun(start, code, budget, rounds), KeptRun(start, code, budget, rounds));
    KeptLogGrows(start, code, budget, rounds, n);
    if n == 0 {
      NothingToFault(start, code, budget);
      NothingDone(start, code, budget);
    } else {
      ReplayablePrefix(start, code, budget, front, n - 1);
      assert part[..|part| - 1] == front[..n - 1];
      ValidPrefix(rounds, n);
      RefinesFrom(start, code, budget, part);
      SameLogs(StatelessRun(start, code, budget, part), KeptRun(start, code, budget, part));
    }
  }

  lemma ValidPrefix(rounds: seq<Round>, n: nat)
    requires ValidRounds(rounds) && n <= |rounds|
    ensures ValidRounds(rounds[..n])
  {
    hide ValidRound;
  }

  lemma SameLogs(stateless: Result<World>, kept: Result<World>)
    requires SameResult(stateless, kept) && kept.Ok?
    ensures stateless.Ok? && stateless.value.machine.log == kept.value.machine.log
  {
  }

  lemma NothingDone(start: World, code: Code, budget: nat)
    ensures StatelessRun(start, code, budget, []) == Ok(start)
  {
  }

  /** Answers are stable: whatever side effects, release checks, clock readings and waits answered when a task was
      first handled, every later rebuild of the workflow answers the same, in the same order. */
  lemma AnswersAreStable(code: Code, budget: nat, rounds: seq<Round>, n: nat)
    requires ValidRounds(rounds) && n <= |rounds| && rounds != []
    requires KeptRun(START, code, budget, rounds).Ok? && ReplayableRun(START, code, budget, rounds[..|rounds| - 1])
    ensures StatelessRun(START, code, budget, rounds).Ok? && StatelessRun(START, code, budget, rounds[..n]).Ok?
    ensures
      StatelessRun(START, code, budget, rounds[..n]).value.machine.log
      <= StatelessRun(START, code, budget, rounds).value.machine.log
  {
    hide *;
    StartResumable(code, budget);
    StableFrom(START, code, budget, rounds, n);
  }

  lemma {:induction false} ReplayablePrefix(start: World, code: Code, budget: nat, rounds: seq<Round>, n: nat)
    requires n <= |rounds| && ReplayableRun(start, code, budget, rounds)
    ensures ReplayableRun(start, code, budget, rounds[..n])
    decreases |rounds|
  {
    if n == |rounds| {
      assert rounds[..n] == rounds;
    } else {
      var front := rounds[..|rounds| - 1];
      ReplayablePrefix(start, code, budget, front, n);
      assert front[..n] == rounds[..n];
    }
  }
}
