/** Why a replayed window retraces the live one. `live` is an executor that kept its state and handles a window as
    new; `fresh` is an executor rebuilt from history that meets the same events, either live too or as a replay of
    what `live` is about to record. */
module Mirror {
  import opened Base
  import opened Decisions
  import opened StateManagers
  import opened Engine
  import opened Protocol

  // ----- The decisions of one window -----


  /** The decisions that reappear as discarding command events, in order. */
  function Unmarked(es: seq<Entry>): seq<Entry> {
    if es == [] then []
    else
      var last := es[|es| - 1];
      Unmarked(es[..|es| - 1]) + (if last.decision.RecordMarker? then [] else [last])
  }

  /** The side effects recorded by these decisions, oldest first. */
  function SideEffectsOf(es: seq<Entry>): seq<SideEffect> {
    if es == [] then []
    else (if IsSideEffect(es[0]) then [SideEffect(es[0].id, es[0].decision.details)] else []) + SideEffectsOf(es[1..])
  }

  function ReleasesOf(es: seq<Entry>): set<Value> {
    if es == [] then {}
    else (if IsRelease(es[0]) then {es[0].decision.details} else {}) + ReleasesOf(es[1..])
  }

  lemma UnmarkedSnoc(es: seq<Entry>, e: Entry)
    ensures Unmarked(es + [e]) == Unmarked(es) + (if e.decision.RecordMarker? then [] else [e])
  {
    assert (es + [e])[..|es|] == es;
  }

  lemma {:induction false} UnmarkedNoTerminal(es: seq<Entry>)
    requires NoTerminal(es)
    ensures NoTerminal(Unmarked(es))
  {
    if es != [] {
      UnmarkedNoTerminal(es[..|es| - 1]);
    }
  }

  // ----- The relation -----

  /** The replay knows each release as the live run does, and those that the live run is yet to mark as true. */
  predicate Foreseen(f: Releases, g: Releases) {
    forall n :: n in f ==> f[n] == (n in g ==> g[n])
  }

  /** `f` replays the window whose live run ends with the decisions `plan`; `g` is that live run so far. */
  ghost predicate Follows(f: ManagerState, g: ManagerState, plan: seq<Entry>, base: int) {
    var done := g.decisions;
    && Numbered(plan, base) && NoTerminal(plan) && done <= plan
    && g.lastEventId == Some(base + |done|)
    && f.decisions == Unmarked(done)
    && f.sideEffects == SideEffectsOf(plan[|done|..])
    && f.releases.Keys == g.releases.Keys + ReleasesOf(plan[|done|..])
    && Foreseen(f.releases, g.releases)
    && (forall x :: base < x ==>
          (x in f.markerIds <==> (x <= base + |plan| && plan[x - base - 1].decision.RecordMarker?)))
    && f.lastEventId.Some?
    && base <= f.lastEventId.value <= base + |done|
    && (forall x :: f.lastEventId.value < x <= base + |done| ==> x in f.markerIds)
  }

  /** Both handle the window live; `f` merely remembers older markers. */
  ghost predicate Agrees(f: ManagerState, g: ManagerState) {
    && f.decisions == g.decisions
    && f.sideEffects == []
    && f.releases == g.releases
    && f.lastEventId == g.lastEventId
    && (f.lastEventId.Some? ==> forall x :: x in f.markerIds ==> x <= f.lastEventId.value)
  }

  ghost predicate ManagersMirror(f: ManagerState, g: ManagerState, plan: seq<Entry>, base: int) {
    && f.localTime == g.localTime
    && !g.replay && g.markerIds == {} && g.sideEffects == []
    && (if f.replay then Follows(f, g, plan, base) else Agrees(f, g))
  }

  /** Same handlers, futures, fibers and answers. */
  predicate SameProgramState(f: Machine, g: Machine) {
    f.handlers == g.handlers && f.futures == g.futures && f.fibers == g.fibers && f.blocks == g.blocks && f.log == g.log
  }

  ghost predicate Mirrors(f: Machine, g: Machine, plan: seq<Entry>, base: int) {
    SameProgramState(f, g) && ManagersMirror(f.manager, g.manager, plan, base)
  }

  /** The environments may differ in the drawn values only when nothing is drawn. */
  ghost predicate SameEnv(f: Env, g: Env, replay: bool) {
    f.code == g.code && f.budget == g.budget && (!replay ==> f.oracle == g.oracle)
  }

  /** A replay is only ever asked about live runs that succeeded and were recorded. */
  ghost predicate Recorded(replay: bool, g: Result<Machine>, plan: seq<Entry>) {
    replay ==> g.Ok? && g.value.manager.decisions <= plan
  }

  /** Both end in related states, or both raise the same error. */
  ghost predicate MirrorResults(f: Result<Machine>, g: Result<Machine>, plan: seq<Entry>, base: int, replay: bool) {
    match (f, g)
    case (Ok(x), Ok(y)) => Mirrors(x, y, plan, base) && x.manager.replay == replay
    case (Err(x), Err(y)) => x == y
    case _ => false
  }

  // ----- The state manager -----

  lemma NextFreeBeyond(last: int, markerIds: set<int>)
    requires forall x :: x in markerIds ==> x <= last
    ensures NextFreeId(last, markerIds) == last + 1
  {
  }

  lemma LiveScheduleMirrors(f: ManagerState, g: ManagerState, d: Decision, plan: seq<Entry>, base: int)
    requires ManagersMirror(f, g, plan, base) && !f.replay
    ensures ScheduleDecision(f, d).result == ScheduleDecision(g, d).result
    ensures ManagersMirror(ScheduleDecision(f, d).state, ScheduleDecision(g, d).state, plan, base)
  {
    if f.lastEventId.Some? {
      NextFreeBeyond(f.lastEventId.value, f.markerIds);
      NextFreeBeyond(g.lastEventId.value, g.markerIds);
    }
  }

  /** What the live run's next decision must be when the run is going to end in `plan`. */
  lemma PlannedStep(g: ManagerState, d: Decision, plan: seq<Entry>, base: int)
    requires !g.replay && g.markerIds == {} && g.lastEventId == Some(base + |g.decisions|)
    requires NoTerminal(plan) && g.decisions <= plan
    requires ScheduleDecision(g, d).state.decisions <= plan
    ensures |g.decisions| < |plan|
    ensures ScheduleDecision(g, d).result.Ok?
    ensures plan[|g.decisions|] == Entry(base + |g.decisions| + 1, WithDefaultId(d, base + |g.decisions| + 1))
    ensures ScheduleDecision(g, d).state.decisions == g.decisions + [plan[|g.decisions|]]
    ensures ScheduleDecision(g, d).state.lastEventId == Some(base + |g.decisions| + 1)
  {
    var n := |g.decisions|;
    NextFreeBeyond(g.lastEventId.value, g.markerIds);
    assert n > 0 ==> g.decisions[n - 1] == plan[n - 1];
    var entry := Entry(base + n + 1, WithDefaultId(d, base + n + 1));
    assert (g.decisions + [entry])[n] == plan[n];
  }

  lemma NumberedAt(es: seq<Entry>, base: int, n: nat)
    requires Numbered(es, base) && n < |es|
    ensures es[n].id == base + n + 1
  {
  }

  /** The relation after one more planned decision, given what became of the replaying side. */
  lemma FollowsStep(f: ManagerState, g: ManagerState, f': ManagerState, g': ManagerState, plan: seq<Entry>, base: int)
    requires Follows(f, g, plan, base) && |g.decisions| < |plan|
    requires g'.decisions == g.decisions + [plan[|g.decisions|]]
    requires g'.lastEventId == Some(base + |g.decisions| + 1)
    requires f'.markerIds == f.markerIds && f'.releases == f.releases
    requires
      var e := plan[|g.decisions|];
      && f'.decisions == f.decisions + (if e.decision.RecordMarker? then [] else [e])
      && f'.lastEventId == (if e.decision.RecordMarker? then f.lastEventId else Some(e.id))
      && f.sideEffects == (if IsSideEffect(e) then [SideEffect(e.id, e.decision.details)] else []) + f'.sideEffects
      && g'.releases == (if IsRelease(e) then g.releases[e.decision.details := true] else g.releases)
      && (IsRelease(e) ==> e.decision.details !in g.releases)
    ensures Follows(f', g', plan, base)
  {
    hide Numbered, NoTerminal, Unmarked;
    var n := |g.decisions|;
    assert plan[n].id == base + n + 1 by {
      NumberedAt(plan, base, n);
    }
    assert plan[n..][1..] == plan[n + 1..];
    UnmarkedSnoc(g.decisions, plan[n]);
    SuffixUnique(if IsSideEffect(plan[n]) then [SideEffect(plan[n].id, plan[n].decision.details)] else [],
                 f'.sideEffects, SideEffectsOf(plan[n + 1..]));
  }

  lemma SuffixUnique<T>(a: seq<T>, b: seq<T>, c: seq<T>)
    requires a + b == a + c
    ensures b == c
  {
    assert b == (a + b)[|a|..] && c == (a + c)[|a|..];
  }

  /** Replay gives an ordinary decision the id it had live, by skipping the ids of recorded markers. */
  lemma ScheduleMirrors(f: ManagerState, g: ManagerState, d: Decision, plan: seq<Entry>, base: int)
    requires ManagersMirror(f, g, plan, base) && !d.RecordMarker?
    requires f.replay ==> ScheduleDecision(g, d).state.decisions <= plan
    ensures ScheduleDecision(f, d).result == ScheduleDecision(g, d).result
    ensures ManagersMirror(ScheduleDecision(f, d).state, ScheduleDecision(g, d).state, plan, base)
  {
    hide ManagersMirror, Keeps;
    if !f.replay {
      LiveScheduleMirrors(f, g, d, plan, base);
    } else {
      ReplayScheduleMirrors(f, g, d, plan, base);
    }
  }

  lemma ReplayScheduleMirrors(f: ManagerState, g: ManagerState, d: Decision, plan: seq<Entry>, base: int)
    requires ManagersMirror(f, g, plan, base) && !d.RecordMarker? && f.replay
    requires ScheduleDecision(g, d).state.decisions <= plan
    ensures ScheduleDecision(f, d).result == ScheduleDecision(g, d).result
    ensures ManagersMirror(ScheduleDecision(f, d).state, ScheduleDecision(g, d).state, plan, base)
  {
    hide Keeps;
    PlannedStep(g, d, plan, base);
    ReplayedId(f, g, plan, base);
    UnmarkedNoTerminal(g.decisions);
    FollowsStep(f, g, ScheduleDecision(f, d).state, ScheduleDecision(g, d).state, plan, base);
  }

  /** The skip loop lands exactly on the id of the next ordinary decision. */
  lemma ReplayedId(f: ManagerState, g: ManagerState, plan: seq<Entry>, base: int)
    requires Follows(f, g, plan, base) && |g.decisions| < |plan| && !plan[|g.decisions|].decision.RecordMarker?
    ensures NextFreeId(f.lastEventId.value, f.markerIds) == base + |g.decisions| + 1
  {
    var id := base + |g.decisions| + 1;
    assert id !in f.markerIds;
    assert forall x :: f.lastEventId.value < x < id ==> x in f.markerIds;
  }

  /** The value drawn live is the value a replay reads from the marker. */
  lemma SideEffectMirrors(f: ManagerState, g: ManagerState, drawnF: Value, drawnG: Value, plan: seq<Entry>, base: int)
    requires ManagersMirror(f, g, plan, base)
    requires f.replay ==> PerformSideEffect(g, drawnG).state.decisions <= plan
    requires !f.replay ==> drawnF == drawnG
    ensures PerformSideEffect(f, drawnF).result == PerformSideEffect(g, drawnG).result
    ensures ManagersMirror(PerformSideEffect(f, drawnF).state, PerformSideEffect(g, drawnG).state, plan, base)
  {
    var d := RecordMarker(SIDE_EFFECT_MARKER, drawnG);
    if !f.replay {
      LiveScheduleMirrors(f, g, d, plan, base);
    } else {
      PlannedStep(g, d, plan, base);
      ConsumesMarker(f, g, plan, base);
      FollowsStep(f, g, PerformSideEffect(f, drawnF).state, PerformSideEffect(g, drawnG).state, plan, base);
    }
  }

  lemma ConsumesMarker(f: ManagerState, g: ManagerState, plan: seq<Entry>, base: int)
    requires Follows(f, g, plan, base) && |g.decisions| < |plan| && IsSideEffect(plan[|g.decisions|])
    ensures
      var e := plan[|g.decisions|];
      f.sideEffects != [] && f.sideEffects[0] == SideEffect(e.id, e.decision.details)
  {
    assert plan[|g.decisions|..][0] == plan[|g.decisions|];
  }

  /** A release check answers the same in a replay as it did live. */
  lemma ReleaseMirrors(f: ManagerState, g: ManagerState, name: string, plan: seq<Entry>, base: int)
    requires ManagersMirror(f, g, plan, base)
    requires f.replay ==> CheckRelease(g, name).state.decisions <= plan
    ensures CheckRelease(f, name).result == CheckRelease(g, name).result
    ensures ManagersMirror(CheckRelease(f, name).state, CheckRelease(g, name).state, plan, base)
  {
    var key := Text(name);
    if key !in g.releases {
      var d := RecordMarker(RELEASE_MARKER, key);
      var g1 := g.(releases := g.releases[key := true]);
      if !f.replay {
        LiveScheduleMirrors(f.(releases := g1.releases), g1, d, plan, base);
      } else {
        PlannedStep(g1, d, plan, base);
        assert plan[|g.decisions|..][0] == plan[|g.decisions|];
        assert key in f.releases;
        FollowsStep(f, g, f, CheckRelease(g, name).state, plan, base);
      }
    }
  }
}
