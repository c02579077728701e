/** Completion routing over whole runs of the protocol. */
module CompletionRouting {
  import opened Base
  import opened Decisions
  import opened Events
  import opened Histories
  import opened Engine
  import opened Protocol
  import opened Mirror
  import opened Windows
  import opened Replay
  import opened Routing

  /** The server reports at most one outcome per command, and only for commands it had recorded before. */
  ghost predicate TimelyOutcomes(code: Code, budget: nat, rounds: seq<Round>) {
    rounds == [] || (
      var front := rounds[..|rounds| - 1];
      var prior := KeptRun(START, code, budget, front);
      && TimelyOutcomes(code, budget, front)
      && (prior.Ok? ==>
            var h := prior.value.history;
            FirstOutcomes(Collect(NewEvents(h, rounds[|rounds| - 1])).events, h, |h|))
    )
  }

  lemma {:induction false} CollectHanded(es: seq<Event>)
    ensures Collect(es).events == Handed(es)
  {
    if es != [] {
      CollectHanded(es[..|es| - 1]);
    }
  }

  lemma QuietKinds(e: Event, t: Target)
    requires e.kind.Bookkeeping() || e.kind.MarkerRecorded?
    ensures !Closes(e, t)
  {
  }

  /** Bookkeeping and markers report no outcomes. */
  lemma {:induction false} VerdictHanded(h: seq<Event>, s: seq<Event>, t: Target)
    ensures Verdict(h + s, t) == Verdict(h + Handed(s), t)
  {
    hide Reported, Closes;
    if s != [] {
      var front, last := s[..|s| - 1], s[|s| - 1];
      if last.kind.Bookkeeping() || last.kind.MarkerRecorded? {
        QuietKinds(last, t);
      }
      VerdictHanded(h, front, t);
      VerdictSnoc(h + front, last, t);
      VerdictSnoc(h + Handed(front), last, t);
      assert h + s == h + front + [last];
      assert h + (Handed(front) + [last]) == h + Handed(front) + [last];
      assert Handed(front) + [] == Handed(front);
    }
  }

  lemma {:induction false} VerdictQuiet(h: seq<Event>, s: seq<Event>, t: Target)
    requires forall i :: 0 <= i < |s| ==> !Closing(s[i])
    ensures Verdict(h + s, t) == Verdict(h, t)
  {
    if s == [] {
      assert h + s == h;
    } else {
      var front, last := s[..|s| - 1], s[|s| - 1];
      VerdictQuiet(h, front, t);
      VerdictSnoc(h + front, last, t);
      assert h + s == h + front + [last];
    }
  }

  lemma ClosingIsQuiet(h: seq<Event>, r: Round, es: seq<Entry>)
    ensures forall i :: 0 <= i < |Completion(h, r, es)| ==> !Closing(Completion(h, r, es)[i])
  {
  }

  /** A whole recorded round says about outcomes just what its news said. */
  lemma VerdictSegment(h: seq<Event>, r: Round, es: seq<Entry>, t: Target)
    ensures Verdict(h + Segment(h, r, es), t) == Verdict(h + Collect(NewEvents(h, r)).events, t)
  {
    var news, closing := NewEvents(h, r), Completion(h, r, es);
    ClosingIsQuiet(h, r, es);
    VerdictQuiet(h + news, closing, t);
    assert h + Segment(h, r, es) == h + news + closing;
    CollectHanded(news);
    VerdictHanded(h, news, t);
  }

  lemma StartRouted()
    ensures Routed(FRESH_MACHINE, [], NoDebt(0))
  {
  }

  /** A new window moves the id counter up to its base. */
  lemma EnteredRouted(m: Machine, w: WindowState, seen: seq<Event>, floor: int)
    requires Routed(m, seen, NoDebt(floor)) && w.lastEventId.Some? && m.manager.lastEventId.value <= w.lastEventId.value
    ensures Routed(Entered(Accepted(m), w), seen, NoDebt(w.lastEventId.value))
  {
    var m1 := Entered(Accepted(m), w);
    ManagerOnly(m, m1.manager, seen, NoDebt(floor));
    assert m1 == m.(manager := m1.manager);
    DebtPaid(m1, seen, NoDebt(floor), floor);
    FloorRouted(m1, seen, floor, w.lastEventId.value);
  }

  lemma FloorRouted(m: Machine, seen: seq<Event>, floor: int, floor': int)
    requires Routed(m, seen, NoDebt(floor)) && floor' <= m.manager.lastEventId.value
    ensures Routed(m, seen, NoDebt(floor'))
  {
    forall fiber: nat | fiber < |m.fibers| && m.fibers[fiber].Parked?
      ensures Sleeps(m, fiber, NoDebt(floor'))
    {
      assert Sleeps(m, fiber, NoDebt(floor));
    }
  }

  lemma SeenEquivalent(m: Machine, seen: seq<Event>, seen': seq<Event>, floor: int)
    requires Routed(m, seen, NoDebt(floor)) && forall t :: Verdict(seen, t) == Verdict(seen', t)
    ensures Routed(m, seen', NoDebt(floor))
  {
  }

  /** The id counter of the kept executor never runs ahead of the history it has caused. */
  lemma CounterBehind(code: Code, budget: nat, rounds: seq<Round>)
    requires ValidRounds(rounds) && KeptRun(START, code, budget, rounds).Ok?
        && NoTerminal(KeptRun(START, code, budget, rounds).value.issued)
    ensures
      var kept := KeptRun(START, code, budget, rounds).value;
      kept.machine.manager.lastEventId.Some? && kept.machine.manager.lastEventId.value <= |kept.history|
  {
    if rounds != [] {
      var kept := KeptRun(START, code, budget, rounds).value;
      var prior := KeptRun(START, code, budget, rounds[..|rounds| - 1]).value;
      StartFit();
      KeptRunTidy(START, code, budget, rounds);
      SegmentLength(prior.history, rounds[|rounds| - 1], kept.issued);
    }
  }

  lemma {:induction false} RoutedRounds(code: Code, budget: nat, rounds: seq<Round>)
    requires ValidRounds(rounds) && TimelyOutcomes(code, budget, rounds)
    ensures
      match KeptRun(START, code, budget, rounds)
      case Ok(kept) => Routed(kept.machine, kept.history, NoDebt(0))
      case Err(e) => !RoutingFault(e)
    decreases |rounds|
  {
    hide Routed;
    if rounds == [] {
      StartRouted();
    } else {
      var front, r := rounds[..|rounds| - 1], rounds[|rounds| - 1];
      RoutedRounds(code, budget, front);
      var prior := KeptRun(START, code, budget, front);
      if prior.Ok? && NoTerminal(prior.value.issued) {
        CounterBehind(code, budget, front);
        RoutedRound(Env(code, r.oracle, budget), prior.value.machine, prior.value.history, r);
      }
    }
  }

  lemma RoutedRound(env: Env, m: Machine, h: seq<Event>, r: Round)
    requires Routed(m, h, NoDebt(0)) && ValidRound(r) && m.manager.lastEventId.value <= |h|
    requires FirstOutcomes(Collect(NewEvents(h, r)).events, h, |h|)
    ensures
      match ApplyWindow(env, Accepted(m), Collect(NewEvents(h, r)))
      case Ok(m') => Routed(m', h + Segment(h, r, m'.manager.decisions), NoDebt(0))
      case Err(e) => !RoutingFault(e)
  {
    var w, base := Collect(NewEvents(h, r)), BaseId(h, r);
    NewWindow(h, r);
    EnteredRouted(m, w, h, 0);
    var entered := Entered(Accepted(m), w);
    ApplyEventsRouted(env, entered, w.events, h, base, |h|);
    var result := ApplyEvents(env, entered, w.events);
    assert ApplyWindow(env, Accepted(m), w) == result;
    if result.Ok? {
      var segment := Segment(h, r, result.value.manager.decisions);
      forall t
        ensures Verdict(h + w.events, t) == Verdict(h + segment, t)
      {
        VerdictSegment(h, r, result.value.manager.decisions, t);
      }
      SeenEquivalent(result.value, h + w.events, h + segment, base);
      FloorRouted(result.value, h + segment, base, 0);
    }
  }

  /** Completion routing. When every recorded decision can be replayed and the server reports outcomes once and in
      time, a worker rebuilt from history has in each future exactly the outcome that the history records for its
      command; no fiber sleeps on a finished future; every wait ever answered got that final outcome; and neither the
      guards of `set` and `fail` nor a resume of a dead fiber can raise. */
  lemma CompletionsReachTheirFutures(code: Code, budget: nat, rounds: seq<Round>)
    requires ValidRounds(rounds) && rounds != [] && TimelyOutcomes(code, budget, rounds)
    requires ReplayableRun(START, code, budget, rounds[..|rounds| - 1])
    ensures
      match StatelessRun(START, code, budget, rounds)
      case Ok(world) =>
        var m := world.machine;
        && (forall i :: 0 <= i < |m.futures| ==> m.futures[i].status == Verdict(world.history, m.futures[i].target))
        && (forall i, j :: 0 <= i < j < |m.futures| ==> m.futures[i].target.id < m.futures[j].target.id)
        && (forall fiber :: 0 <= fiber < |m.fibers| && m.fibers[fiber].Parked? ==>
              m.fibers[fiber].future < |m.futures| && m.futures[m.fibers[fiber].future].status.Pending?)
        && (forall k :: 0 <= k < |m.log| ==> FinalAnswer(m, m.log[k]))
      case Err(e) => e != FutureConflict && e != DeadFiber
  {
    ReplayRefinesIncremental(code, budget, rounds);
    RoutedRounds(code, budget, rounds);
    var kept := KeptRun(START, code, budget, rounds);
    if kept.Ok? {
      RoutedFacts(kept.value.machine, StatelessRun(START, code, budget, rounds).value.machine, kept.value.history);
    }
  }

  lemma RoutedFacts(g: Machine, f: Machine, h: seq<Event>)
    requires Routed(g, h, NoDebt(0)) && SameProgramState(f, g)
    ensures forall i :: 0 <= i < |f.futures| ==> f.futures[i].status == Verdict(h, f.futures[i].target)
    ensures forall i, j :: 0 <= i < j < |f.futures| ==> f.futures[i].target.id < f.futures[j].target.id
    ensures
      forall fiber :: 0 <= fiber < |f.fibers| && f.fibers[fiber].Parked? ==>
        f.fibers[fiber].future < |f.futures| && f.futures[f.fibers[fiber].future].status.Pending?
    ensures forall k :: 0 <= k < |f.log| ==> FinalAnswer(f, f.log[k])
  {
    forall fiber: nat | fiber < |f.fibers| && f.fibers[fiber].Parked?
      ensures f.fibers[fiber].future < |f.futures| && f.futures[f.fibers[fiber].future].status.Pending?
    {
      assert Sleeps(g, fiber, NoDebt(0));
    }
    forall k | 0 <= k < |f.log|
      ensures FinalAnswer(f, f.log[k])
    {
      assert FinalAnswer(g, g.log[k]);
    }
  }
}
