/** A running workflow whose code gets a new release check. The first tasks are handled by the old code, all later ones
    by the new code, whose false branch is the old code; workers rebuild the workflow for each task with the code of the
    day. They are indistinguishable from a worker that never forgets and took the new code over at that point. Upgrades
    can follow one another: the point at which one ends is a point from which the next may start. */
module Upgrades {
  import opened Base
  import opened Events
  import opened Histories
  import opened StateManagers
  import opened Engine
  import opened MirrorRun
  import opened Windows
  import opened Protocol
  import opened Replay
  import opened Runs
  import opened Checks
  import opened Stickiness
  import opened Deployments

  /** The tasks of `rounds` were handled by `former`, what they recorded can be replayed, and the workflow is still
      open. From now on `code` is deployed: the release is new, and `code` does not ask for it for ever. */
  ghost predicate Upgradable(start: World, former: Code, budget: nat, rounds: seq<Round>, code: Code, name: string) {
    && Resumable(start, former, budget) && ValidRounds(rounds) && ReplayableRun(start, former, budget, rounds)
    && KeptRun(start, former, budget, rounds).Ok?
    && var run := KeptRun(start, former, budget, rounds).value;
       && NoTerminal(run.issued) && !Known(run.machine, name)
       && CleanedUp(code, former, name, false) && NeverAsksForEver(code, name, run.machine.log)
  }

  /** The world in which the new code takes over: the executor is the one that the new code rebuilds. */
  ghost function Upgraded(run: World, code: Code, budget: nat): World
    requires Execute(Env(code, NullOracle(), budget), run.history).Ok?
  {
    var m := Execute(Env(code, NullOracle(), budget), run.history).value;
    World(run.history, m.(manager := m.manager.(markerIds := {})), run.issued)
  }

  // ----- The new code can take over -----

  /** The history of a run from a resumable point consists of completed decision tasks. */
  lemma RunRecorded(start: World, code: Code, budget: nat, rounds: seq<Round>)
    requires Resumable(start, code, budget) && ValidRounds(rounds) && KeptRun(start, code, budget, rounds).Ok?
    requires NoTerminal(KeptRun(start, code, budget, rounds).value.issued)
    ensures
      var h := KeptRun(start, code, budget, rounds).value.history;
      AllDecided(h) && AllRecorded(Split(h))
  {
    hide *;
    ResumableParts(start, Env(code, NullOracle(), budget));
    HistoryWindows(start, code, budget, rounds, []);
    SegmentsAreReplay(start, code, budget, rounds);
    BothRecorded(Split(start.history), Segments(start, code, budget, rounds));
  }

  lemma BothRecorded(a: seq<seq<Event>>, b: seq<seq<Event>>)
    requires AllRecorded(a) && AllRecorded(b)
    ensures AllRecorded(a + b)
  {
    hide Collect;
  }

  /** Whatever its oracle, the old code replays the run to the executor that was kept. */
  lemma OldReplay(start: World, former: Code, budget: nat, rounds: seq<Round>, code: Code, name: string, o: Env)
    requires Upgradable(start, former, budget, rounds, code, name) && o.code == former && o.budget == budget
    ensures
      var run := KeptRun(start, former, budget, rounds).value;
      && Recording(o, code, name, run.history)
      && Related(Execute(o, run.history).value, Accepted(run.machine), |run.history|)
      && Execute(o, run.history).value.log == run.machine.log
  {
    var run := KeptRun(start, former, budget, rounds).value;
    hide KeptRun, Resumable, Execute, ValidRounds, ReplayableRun, NoTerminal, CleanedUp, NeverAsksForEver, AllDecided,
         AllRecorded, Split, AllAnswerable;
    ReplayFrom(start, former, budget, rounds, o);
    RunRecorded(start, former, budget, rounds);
  }

  /** Two rebuilds with different oracles are the same in all that matters. */
  lemma SameRebuild(a: Machine, b: Machine, ra: Machine, rb: Machine, kept: Machine, n: int, code: Code, name: string)
    requires Related(a, kept, n) && Related(b, kept, n)
    requires Carries(a, ra, code, name) && Carries(b, rb, code, name)
    ensures Related(ra, Accepted(rb.(manager := rb.manager.(markerIds := {}))), n)
  {
    hide Strip, AllAnswered, Faithful, Asks, Asked;
    SettledCovers(code, ra.log, rb.log, name, false);
    SettledCovers(code, rb.log, ra.log, name, false);
    assert ra.log == rb.log;
  }

  /** With enough requests the new code takes over: it goes on from the run, and whoever rebuilds the workflow with it,
      with any oracle, ends where it stands. */
  ghost predicate TakesOver(run: World, code: Code, budget: nat, name: string) {
    && Execute(Env(code, NullOracle(), budget), run.history).Ok?
    && var upgraded := Upgraded(run, code, budget);
       && Resumable(upgraded, code, budget)
       && Strip(upgraded.machine.log, name) == run.machine.log && AllAnswered(upgraded.machine.log, name, false)
       && (Known(upgraded.machine, name) <==> Asked(upgraded.machine.log, name))
       && (Known(upgraded.machine, name) ==> !upgraded.machine.manager.releases[Text(name)])
  }

  /** With `k` checks in a row at most, the new code rebuilds the run with any oracle. */
  lemma NewReplay(start: World, former: Code, budget: nat, rounds: seq<Round>, code: Code, name: string, k: nat, n: Env)
    requires Upgradable(start, former, budget, rounds, code, name) && n.code == code
    requires AsksAtMost(code, name, k, KeptRun(start, former, budget, rounds).value.machine.log)
    requires n.budget >= (k + 1) * budget
    ensures
      var run, o := KeptRun(start, former, budget, rounds).value, Env(former, n.oracle, budget);
      && Execute(o, run.history).Ok? && Execute(n, run.history).Ok?
      && Related(Execute(o, run.history).value, Accepted(run.machine), |run.history|)
      && Carries(Execute(o, run.history).value, Execute(n, run.history).value, code, name)
  {
    var run, o := KeptRun(start, former, budget, rounds).value, Env(former, n.oracle, budget);
    OldReplay(start, former, budget, rounds, code, name, o);
    var final := run.machine.log;
    hide KeptRun, Resumable, Upgradable, Execute, Split, AllRecorded, CleanedUp, AsksAtMost, Resting, Related, Carries;
    HistoryFollows(o, n, run.history, name, k, final);
    RestingContinues(o, n, name, run.history);
  }

  lemma Rebuildable(start: World, former: Code, budget: nat, rounds: seq<Round>, code: Code, name: string, k: nat,
                    more: nat)
    requires Upgradable(start, former, budget, rounds, code, name)
    requires AsksAtMost(code, name, k, KeptRun(start, former, budget, rounds).value.machine.log)
    requires more >= (k + 1) * budget
    ensures TakesOver(KeptRun(start, former, budget, rounds).value, code, more, name)
  {
    var run := KeptRun(start, former, budget, rounds).value;
    var quiet, former' := Env(code, NullOracle(), more), Env(former, NullOracle(), budget);
    RunIsOpen(start, former, budget, rounds, code, name);
    RunRecorded(start, former, budget, rounds);
    NewReplay(start, former, budget, rounds, code, name, k, quiet);
    hide KeptRun, Upgradable, AsksAtMost, Execute, Split, AllRecorded, AllDecided, Carries, Related;
    var a, ra := Execute(former', run.history).value, Execute(quiet, run.history).value;
    var upgraded := Upgraded(run, code, more);
    forall n: Env | n.code == code && n.budget == more
      ensures Resumes(upgraded, n)
    {
      NewReplay(start, former, budget, rounds, code, name, k, n);
      var o := Env(former, n.oracle, budget);
      SameRebuild(Execute(o, run.history).value, a, Execute(n, run.history).value, ra, Accepted(run.machine),
                  |run.history|, code, name);
    }
    CarriedParts(a, ra, Accepted(run.machine), |run.history|, code, name);
  }

  lemma RunIsOpen(start: World, former: Code, budget: nat, rounds: seq<Round>, code: Code, name: string)
    requires Upgradable(start, former, budget, rounds, code, name)
    ensures Resumable(start, former, budget) && ValidRounds(rounds) && KeptRun(start, former, budget, rounds).Ok?
    ensures NoTerminal(KeptRun(start, former, budget, rounds).value.issued)
    ensures NeverAsksForEver(code, name, KeptRun(start, former, budget, rounds).value.machine.log)
    ensures !Known(KeptRun(start, former, budget, rounds).value.machine, name)
  {
  }

  lemma CarriedParts(a: Machine, ra: Machine, kept: Machine, n: int, code: Code, name: string)
    requires Related(a, kept, n) && Carries(a, ra, code, name) && !Known(kept, name)
    ensures Strip(ra.log, name) == kept.log && AllAnswered(ra.log, name, false)
    ensures Known(ra, name) <==> Asked(ra.log, name)
    ensures Known(ra, name) ==> !ra.manager.releases[Text(name)]
  {
  }

  /** The new code can take over: some number of requests is enough, and from there on any. */
  lemma NewCodeTakesOver(start: World, former: Code, budget: nat, rounds: seq<Round>, code: Code, name: string)
    returns (enough: nat)
    requires Upgradable(start, former, budget, rounds, code, name)
    ensures
      forall more: nat :: more >= enough ==>
        TakesOver(KeptRun(start, former, budget, rounds).value, code, more, name)
  {
    hide KeptRun, Upgradable, TakesOver, NeverAsksForEver, AsksAtMost;
    RunIsOpen(start, former, budget, rounds, code, name);
    var k := BoundedAsks(code, name, KeptRun(start, former, budget, rounds).value.machine.log);
    enough := (k + 1) * budget;
    forall more: nat | more >= enough
      ensures TakesOver(KeptRun(start, former, budget, rounds).value, code, more, name)
    {
      Rebuildable(start, former, budget, rounds, code, name, k, more);
    }
  }

  // ----- Workers without memory -----

  /** The first tasks are handled by the former code and the later ones by the new code, each by a fresh executor over
      the whole history. */
  function Handover(start: World, former: Code, budget: nat, rounds: seq<Round>, code: Code, more: nat,
                    later: seq<Round>): Result<World> {
    var run :- StatelessRun(start, former, budget, rounds);
    StatelessRun(run, code, more, later)
  }

  /** A worker without memory takes nothing but the history from its predecessor. */
  lemma {:induction false} OnlyHistoryMatters(a: World, b: World, code: Code, budget: nat, rounds: seq<Round>)
    requires a.history == b.history && a.issued == b.issued && rounds != []
    ensures StatelessRun(a, code, budget, rounds) == StatelessRun(b, code, budget, rounds)
    decreases |rounds|
  {
    hide Execute, NewEvents, Segment, NoTerminal;
    var front := rounds[..|rounds| - 1];
    if front != [] {
      OnlyHistoryMatters(a, b, code, budget, front);
    }
  }

  /** The former workers leave the history of the former run behind. */
  lemma FormerWorkers(start: World, former: Code, budget: nat, rounds: seq<Round>)
    requires Resumable(start, former, budget) && ValidRounds(rounds) && ReplayableRun(start, former, budget, rounds)
    requires KeptRun(start, former, budget, rounds).Ok?
    ensures StatelessRun(start, former, budget, rounds).Ok?
    ensures
      var left, run := StatelessRun(start, former, budget, rounds).value, KeptRun(start, former, budget, rounds).value;
      left.history == run.history && left.issued == run.issued && left.machine.log == run.machine.log
  {
    hide *;
    if rounds == [] {
      NoRounds(start, former, budget);
      NothingDone(start, former, budget);
    } else {
      LastReplayable(start, former, budget, rounds);
      RefinesFrom(start, former, budget, rounds);
      SameRecords(StatelessRun(start, former, budget, rounds), KeptRun(start, former, budget, rounds));
    }
  }

  lemma SameRecords(stateless: Result<World>, kept: Result<World>)
    requires SameResult(stateless, kept) && kept.Ok?
    ensures stateless.Ok? && stateless.value.history == kept.value.history
    ensures stateless.value.issued == kept.value.issued && stateless.value.machine.log == kept.value.machine.log
  {
  }

  lemma HandedOver(start: World, former: Code, budget: nat, rounds: seq<Round>, code: Code, name: string, more: nat,
                   later: seq<Round>)
    requires Upgradable(start, former, budget, rounds, code, name) && later != []
    requires TakesOver(KeptRun(start, former, budget, rounds).value, code, more, name)
    ensures
      KeptRun(start, former, budget, rounds).Ok?
      && Execute(Env(code, NullOracle(), more), KeptRun(start, former, budget, rounds).value.history).Ok?
    ensures
      var upgraded := Upgraded(KeptRun(start, former, budget, rounds).value, code, more);
      && Resumable(upgraded, code, more)
      && Handover(start, former, budget, rounds, code, more, later) == StatelessRun(upgraded, code, more, later)
  {
    hide KeptRun, StatelessRun, Resumable, ReplayableRun, CleanedUp, NeverAsksForEver, Strip, AllAnswered, Asked,
         Execute;
    var upgraded := Upgraded(KeptRun(start, former, budget, rounds).value, code, more);
    FormerWorkers(start, former, budget, rounds);
    OnlyHistoryMatters(StatelessRun(start, former, budget, rounds).value, upgraded, code, more, later);
  }

  lemma StableSince(start: World, code: Code, budget: nat, rounds: seq<Round>, n: nat)
    requires Resumable(start, code, budget) && ValidRounds(rounds) && 0 < n <= |rounds|
    requires KeptRun(start, code, budget, rounds).Ok? && ReplayableRun(start, code, budget, rounds[..|rounds| - 1])
    ensures StatelessRun(start, code, budget, rounds).Ok? && StatelessRun(start, code, budget, rounds[..n]).Ok?
    ensures
      var some := StatelessRun(start, code, budget, rounds[..n]).value;
      var all := StatelessRun(start, code, budget, rounds).value;
      start.machine.log <= some.machine.log && some.machine.log <= all.machine.log
  {
    hide *;
    var front, part := rounds[..|rounds| - 1], rounds[..n];
    StableFrom(start, code, budget, rounds, n);
    ValidPrefix(rounds, n);
    KeptLogGrows(start, code, budget, rounds, n);
    ReplayablePrefix(start, code, budget, front, n - 1);
    assert part[..|part| - 1] == front[..n - 1] && part[..0] == [];
    StableFrom(start, code, budget, part, 0);
    NothingDone(start, code, budget);
  }

  // ----- The theorems -----

  /** An upgrade is invisible: workers that rebuild everything, the first with the former code and the later ones with
      the new code, are indistinguishable from one that took over at that point and never forgets, as long as every
      decision recorded since can be replayed; and then none of them calls the code non-deterministic. */
  lemma UpgradeRefines(start: World, former: Code, budget: nat, rounds: seq<Round>, code: Code, name: string, more: nat,
                       later: seq<Round>)
    requires Upgradable(start, former, budget, rounds, code, name) && ValidRounds(later) && later != []
    requires TakesOver(KeptRun(start, former, budget, rounds).value, code, more, name)
    ensures
      var upgraded := Upgraded(KeptRun(start, former, budget, rounds).value, code, more);
      var front := later[..|later| - 1];
      var kept := KeptRun(upgraded, code, more, later);
      var stateless := Handover(start, former, budget, rounds, code, more, later);
      && (ReplayableRun(upgraded, code, more, front) ==>
            SameResult(stateless, kept) && stateless != Err(NonDeterministicWorkflow))
      && (kept.Ok? && !ReplayableRun(upgraded, code, more, front) ==>
            stateless.Err? && RunFault(upgraded, code, more, front) == Some(stateless.error))
  {
    hide *;
    HandedOver(start, former, budget, rounds, code, name, more, later);
    var upgraded := Upgraded(KeptRun(start, former, budget, rounds).value, code, more);
    RefinesFrom(upgraded, code, more, later);
    if ReplayableRun(upgraded, code, more, later[..|later| - 1]) {
      NoAlarmFrom(upgraded, code, more, later);
    }
  }

  /** Answers survive an upgrade: what any task was told, with the former or the new code, every later rebuild is told
      again, in the same order; only the checks that the new code added, all of them false, stand between. */
  lemma UpgradeKeepsAnswers(start: World, former: Code, budget: nat, rounds: seq<Round>, code: Code, name: string,
                            more: nat, later: seq<Round>, n: nat)
    requires Upgradable(start, former, budget, rounds, code, name) && ValidRounds(later) && 0 < n <= |later|
    requires TakesOver(KeptRun(start, former, budget, rounds).value, code, more, name)
    requires
      var upgraded := Upgraded(KeptRun(start, former, budget, rounds).value, code, more);
      KeptRun(upgraded, code, more, later).Ok? && ReplayableRun(upgraded, code, more, later[..|later| - 1])
    ensures
      var upgraded := Upgraded(KeptRun(start, former, budget, rounds).value, code, more);
      var left := StatelessRun(start, former, budget, rounds);
      var some := Handover(start, former, budget, rounds, code, more, later[..n]);
      var all := Handover(start, former, budget, rounds, code, more, later);
      && left.Ok? && some.Ok? && all.Ok?
      && some.value.machine.log <= all.value.machine.log
      && upgraded.machine.log <= some.value.machine.log
      && Strip(upgraded.machine.log, name) == left.value.machine.log
      && AllAnswered(upgraded.machine.log, name, false)
  {
    hide *;
    UpgradedParts(start, former, budget, rounds, code, name, more);
    HandedOver(start, former, budget, rounds, code, name, more, later);
    HandedOver(start, former, budget, rounds, code, name, more, later[..n]);
    StableSince(Upgraded(KeptRun(start, former, budget, rounds).value, code, more), code, more, later, n);
  }

  lemma UpgradedParts(start: World, former: Code, budget: nat, rounds: seq<Round>, code: Code, name: string, more: nat)
    requires Upgradable(start, former, budget, rounds, code, name)
    requires TakesOver(KeptRun(start, former, budget, rounds).value, code, more, name)
    ensures
      KeptRun(start, former, budget, rounds).Ok?
      && Execute(Env(code, NullOracle(), more), KeptRun(start, former, budget, rounds).value.history).Ok?
    ensures StatelessRun(start, former, budget, rounds).Ok?
    ensures
      var upgraded := Upgraded(KeptRun(start, former, budget, rounds).value, code, more);
      && Strip(upgraded.machine.log, name) == StatelessRun(start, former, budget, rounds).value.machine.log
      && AllAnswered(upgraded.machine.log, name, false)
  {
    hide KeptRun, StatelessRun, Resumable, ReplayableRun, CleanedUp, NeverAsksForEver, Strip, AllAnswered, Asked,
         Execute;
    FormerWorkers(start, former, budget, rounds);
  }

  // ----- What the new code is told -----

  /** Every check of the release is told false, if `asked`, and otherwise true, or it raises. */
  ghost predicate ToldAlike(log: seq<LogEntry>, name: string, asked: bool) {
    forall i: nat :: CheckAt(log, i, name) ==>
      if asked then log[i].answer == Flag(false) else log[i].answer == Flag(true) || log[i].answer.Raised?
  }

  ghost predicate Sticks(m: Machine, name: string, asked: bool) {
    && ToldAlike(m.log, name, asked)
    && (asked ==> Known(m, name))
    && (Known(m, name) ==> m.manager.releases[Text(name)] == !asked)
  }

  lemma {:induction false} EventsConsistent(env: Env, m: Machine, es: seq<Event>)
    requires News(es) && ApplyEvents(env, m, es).Ok?
    ensures Consistent(m, ApplyEvents(env, m, es).value)
    decreases |es|
  {
    hide ApplyEvent, Consistent;
    if es == [] {
      NothingNew(m, m);
    } else {
      var front, last := es[..|es| - 1], es[|es| - 1];
      var before := ApplyEvents(env, m, front).value;
      EventsConsistent(env, m, front);
      NewsConsistent(env, before, last);
      ConsistentTransitive(m, before, ApplyEvents(env, m, es).value);
    }
  }

  lemma NewsConsistent(env: Env, m: Machine, e: Event)
    requires !e.kind.MarkerRecorded? && ApplyEvent(env, m, e).Ok?
    ensures Consistent(m, ApplyEvent(env, m, e).value)
  {
    hide ApplyEvent, Consistent, Absorb;
    ConsistentClosed(env);
    ApplyEventClosed(env, m, e, Consistent);
    AbsorbReleases(m.manager, e);
    NothingNew(m, Absorbed(m, e));
    ConsistentTransitive(m, Absorbed(m, e), ApplyEvent(env, m, e).value);
  }

  lemma RoundSticks(env: Env, prior: World, r: Round, name: string, asked: bool)
    requires ValidRound(r) && Sticks(prior.machine, name, asked)
    ensures
      var m := ApplyWindow(env, Accepted(prior.machine), Collect(NewEvents(prior.history, r)));
      m.Ok? ==> Sticks(m.value, name, asked)
  {
    var w := Collect(NewEvents(prior.history, r));
    NewWindow(prior.history, r);
    hide ApplyEvents, AllAnswerable, Tidy;
    var g := Entered(Accepted(prior.machine), w);
    var result := ApplyEvents(env, g, w.events);
    assert ApplyWindow(env, Accepted(prior.machine), w) == result by {
      NoMarkers(env, g);
    }
    if result.Ok? {
      ApplyEventsGrows(env, g, w.events);
      EventsConsistent(env, g, w.events);
      StepSticks(g, result.value, name, asked);
    }
  }

  lemma NoMarkers(env: Env, m: Machine)
    ensures ApplyEvents(env, m, []) == Ok(m)
  {
  }

  lemma StepSticks(g: Machine, m: Machine, name: string, asked: bool)
    requires Sticks(g, name, asked) && !g.manager.replay && Extends(g, m) && Consistent(g, m)
    ensures Sticks(m, name, asked)
  {
    forall i: nat | CheckAt(m.log, i, name)
      ensures if asked then m.log[i].answer == Flag(false) else m.log[i].answer == Flag(true) || m.log[i].answer.Raised?
    {
      if i < |g.log| {
        assert CheckAt(g.log, i, name) && g.log[i] == m.log[i];
      } else {
        assert AnswerHolds(m, i, name, |g.log|, g.manager.releases);
      }
    }
  }

  lemma {:induction false} RunSticks(start: World, code: Code, budget: nat, rounds: seq<Round>, name: string,
                                     asked: bool)
    requires ValidRounds(rounds) && KeptRun(start, code, budget, rounds).Ok? && Sticks(start.machine, name, asked)
    ensures Sticks(KeptRun(start, code, budget, rounds).value.machine, name, asked)
    decreases |rounds|
  {
    hide *;
    if rounds == [] {
      NoRounds(start, code, budget);
    } else {
      var front, r := rounds[..|rounds| - 1], rounds[|rounds| - 1];
      FrontValid(rounds);
      LastRound(start, code, budget, rounds);
      RunSticks(start, code, budget, front, name, asked);
      RoundSticks(Env(code, r.oracle, budget), KeptRun(start, code, budget, front).value, r, name, asked);
    }
  }

  lemma UpgradedSticks(run: World, code: Code, more: nat, name: string)
    requires TakesOver(run, code, more, name)
    ensures
      var upgraded := Upgraded(run, code, more);
      Sticks(upgraded.machine, name, Asked(upgraded.machine.log, name))
  {
    hide Execute, Resumable, Strip;
  }

  /** What the new code is told about its release, in every task and every rebuild for ever after: false, if the new
      code checked it in what the former code had already done, and otherwise true. */
  lemma UpgradeIsSticky(start: World, former: Code, budget: nat, rounds: seq<Round>, code: Code, name: string,
                        more: nat, later: seq<Round>)
    requires Upgradable(start, former, budget, rounds, code, name) && ValidRounds(later) && later != []
    requires TakesOver(KeptRun(start, former, budget, rounds).value, code, more, name)
    requires
      var upgraded := Upgraded(KeptRun(start, former, budget, rounds).value, code, more);
      KeptRun(upgraded, code, more, later).Ok? && ReplayableRun(upgraded, code, more, later[..|later| - 1])
    ensures Handover(start, former, budget, rounds, code, more, later).Ok?
    ensures
      var upgraded := Upgraded(KeptRun(start, former, budget, rounds).value, code, more);
      ToldAlike(Handover(start, former, budget, rounds, code, more, later).value.machine.log, name,
                Asked(upgraded.machine.log, name))
  {
    hide *;
    HandedOver(start, former, budget, rounds, code, name, more, later);
    var run := KeptRun(start, former, budget, rounds).value;
    var upgraded := Upgraded(run, code, more);
    UpgradedSticks(run, code, more, name);
    var asked := Asked(upgraded.machine.log, name);
    RunSticks(upgraded, code, more, later, name, asked);
    RefinesFrom(upgraded, code, more, later);
    var kept := KeptRun(upgraded, code, more, later);
    SameRecords(StatelessRun(upgraded, code, more, later), kept);
    SticksTold(kept.value.machine, name, asked);
  }

  lemma SticksTold(m: Machine, name: string, asked: bool)
    requires Sticks(m, name, asked)
    ensures ToldAlike(m.log, name, asked)
  {
  }
}
