/** The histories that the protocol writes are orderly: what the server must guarantee concerns only the news. */
module OrderlyHistories {
  import opened Base
  import opened Decisions
  import opened Events
  import opened StateManagers
  import opened Engine
  import opened Lifecycle
  import opened Protocol
  import opened Replay
  import opened Runs
  import opened Histories

  /** An event about a decision comes after the decision, and reports a later phase than any event before it. */
  ghost predicate InOrder(e: Event, seen: seq<Event>) {
    PhaseAfter(e.kind).Some? ==>
      && e.DecisionId() <= e.id
      && forall p :: p in Phases(seen, e.DecisionId()) ==> Rank(p) < Rank(PhaseAfter(e.kind).value)
  }

  ghost predicate AllInOrder(es: seq<Event>, seen: seq<Event>) {
    forall i :: 0 <= i < |es| ==> InOrder(es[i], seen + es[..i])
  }

  /** The server's part: in each round the news, numbered after the history so far, is in order. */
  ghost predicate OrderlyNews(code: Code, budget: nat, rounds: seq<Round>) {
    rounds == [] || (
      var front, r := rounds[..|rounds| - 1], rounds[|rounds| - 1];
      var prior := KeptRun(START, code, budget, front);
      && OrderlyNews(code, budget, front)
      && (prior.Ok? ==>
            AllInOrder(Numbering(|prior.value.history| + 1, r.noise), prior.value.history))
    )
  }

  lemma OrderlySnoc(h: seq<Event>, e: Event)
    requires OrderlyServer(h) && InOrder(e, h) && forall i :: 0 <= i < |h| ==> h[i].id < e.id
    ensures OrderlyServer(h + [e])
  {
    var all := h + [e];
    forall id
      ensures Increasing(Phases(all, id))
    {
      PhasesSnoc(h, e, id);
      assert Increasing(Phases(h, id));
      hide Phases;
      var ps := Phases(h, id);
      assert forall i :: 0 <= i < |ps| ==> ps[i] in ps;
    }
  }

  /** Every prefix of `es`, appended to `h`, is numbered upwards and in order. */
  lemma {:induction false} OrderlyAppend(h: seq<Event>, es: seq<Event>)
    requires OrderlyServer(h) && AllInOrder(es, h)
    requires forall i, j :: 0 <= i < j < |h + es| ==> (h + es)[i].id < (h + es)[j].id
    ensures OrderlyServer(h + es)
    decreases |es|
  {
    hide OrderlyServer, InOrder;
    if es == [] {
      assert h + es == h;
    } else {
      var front, last := es[..|es| - 1], es[|es| - 1];
      assert forall i :: 0 <= i < |front| ==> front[i] == es[i] && front[..i] == es[..i];
      assert forall i :: 0 <= i < |h + front| ==> (h + front)[i] == (h + es)[i];
      assert (h + es)[|h + front|] == last;
      OrderlyAppend(h, front);
      OrderlySnoc(h + front, last);
      assert h + front + [last] == h + es;
    }
  }

  /** An event about itself alone is in order: nothing before it can be about it. */
  lemma OwnIdInOrder(e: Event, seen: seq<Event>)
    requires RefersBack(seen + [e]) && e.DecisionId() == e.id
    ensures InOrder(e, seen)
  {
    var all := seen + [e];
    forall i | 0 <= i < |seen|
      ensures Lifecycle.Step(seen[i], e.id) == []
    {
      assert all[i] == seen[i] && all[|seen|] == e;
    }
    NoPhases(seen, e.id);
  }

  lemma CompletionsAreAboutThemselves(h: seq<Event>, r: Round, es: seq<Entry>)
    ensures
      forall i :: 0 <= i < |Completion(h, r, es)| ==>
        || PhaseAfter(Completion(h, r, es)[i].kind).None?
        || Completion(h, r, es)[i].DecisionId() == Completion(h, r, es)[i].id
  {
  }

  /** Bookkeeping and events about themselves are in order after any numbered history. */
  lemma OwnIdsInOrder(h: seq<Event>, es: seq<Event>)
    requires forall i, j :: 0 <= i < j < |h + es| ==> (h + es)[i].id < (h + es)[j].id
    requires forall i :: 0 <= i < |h| ==> PhaseAfter(h[i].kind).Some? ==> h[i].DecisionId() <= h[i].id
    requires forall i :: 0 <= i < |es| ==> PhaseAfter(es[i].kind).None? || es[i].DecisionId() == es[i].id
    ensures AllInOrder(es, h)
  {
    forall i | 0 <= i < |es|
      ensures InOrder(es[i], h + es[..i])
    {
      var before := h + es[..i];
      if PhaseAfter(es[i].kind).Some? {
        assert forall k :: 0 <= k < |before + [es[i]]| ==> (before + [es[i]])[k] == (h + es)[k];
        assert forall k :: |h| <= k < |before + [es[i]]| ==> (h + es)[k] == es[k - |h|];
        assert forall k :: 0 <= k < |h| ==> (h + es)[k] == h[k];
        OwnIdInOrder(es[i], before);
      }
    }
  }

  lemma SegmentOrderly(h: seq<Event>, r: Round, es: seq<Entry>)
    requires OrderlyServer(h) && Consecutive(h + Segment(h, r, es))
    requires AllInOrder(Numbering(|h| + 1, r.noise), h)
    ensures OrderlyServer(h + Segment(h, r, es))
  {
    hide PhaseAfter, Phases, OrderlyServer, InOrder, Segment;
    var news := Numbering(|h| + 1, r.noise);
    var closing := [Event(|h| + |r.noise| + 1, DecisionTaskStarted(r.time))] + Completion(h, r, es);
    SegmentIsNewsAndClosing(h, r, es);
    assert h + Segment(h, r, es) == h + news + closing;
    forall i, j | 0 <= i < j < |h + news|
      ensures (h + news)[i].id < (h + news)[j].id
    {
      assert (h + news)[i] == (h + news + closing)[i] && (h + news)[j] == (h + news + closing)[j];
    }
    OrderlyAppend(h, news);
    ClosingAboutItself(h, r, es);
    OrderlyRefersBack(h + news);
    OwnIdsInOrder(h + news, closing);
    OrderlyAppend(h + news, closing);
  }

  lemma OrderlyRefersBack(h: seq<Event>)
    requires OrderlyServer(h)
    ensures RefersBack(h)
  {
  }

  lemma SegmentIsNewsAndClosing(h: seq<Event>, r: Round, es: seq<Entry>)
    ensures
      Segment(h, r, es)
      == Numbering(|h| + 1, r.noise)
         + ([Event(|h| + |r.noise| + 1, DecisionTaskStarted(r.time))] + Completion(h, r, es))
  {
    assert NewEvents(h, r) == Numbering(|h| + 1, r.noise) + [Event(|h| + |r.noise| + 1, DecisionTaskStarted(r.time))];
  }

  lemma ClosingAboutItself(h: seq<Event>, r: Round, es: seq<Entry>)
    ensures
      var closing := [Event(|h| + |r.noise| + 1, DecisionTaskStarted(r.time))] + Completion(h, r, es);
      forall i :: 0 <= i < |closing| ==> PhaseAfter(closing[i].kind).None? || closing[i].DecisionId() == closing[i].id
  {
    CompletionsAreAboutThemselves(h, r, es);
  }

  lemma NothingOrderly()
    ensures OrderlyServer([])
  {
    var none: seq<Event> := [];
    assert forall id :: Phases(none, id) == [];
  }

  lemma RoundOrderly(code: Code, budget: nat, rounds: seq<Round>)
    requires rounds != [] && KeptRun(START, code, budget, rounds).Ok? && OrderlyNews(code, budget, rounds)
    requires KeptRun(START, code, budget, rounds[..|rounds| - 1]).Ok?
    requires OrderlyServer(KeptRun(START, code, budget, rounds[..|rounds| - 1]).value.history)
    ensures OrderlyServer(KeptRun(START, code, budget, rounds).value.history)
  {
    hide *;
    LastRound(START, code, budget, rounds);
    LastNews(code, budget, rounds);
    HistoryConsecutive(code, budget, rounds);
    var prior := KeptRun(START, code, budget, rounds[..|rounds| - 1]).value;
    var kept := KeptRun(START, code, budget, rounds).value;
    SegmentOrderly(prior.history, rounds[|rounds| - 1], kept.issued);
  }

  /** If the news of every round is in order, so is the whole history, commands included. */
  lemma {:induction false} HistoryOrderly(code: Code, budget: nat, rounds: seq<Round>)
    requires KeptRun(START, code, budget, rounds).Ok? && OrderlyNews(code, budget, rounds)
    ensures OrderlyServer(KeptRun(START, code, budget, rounds).value.history)
    decreases |rounds|
  {
    hide OrderlyServer;
    if rounds == [] {
      NothingOrderly();
    } else {
      hide *;
      LastRound(START, code, budget, rounds);
      LastNews(code, budget, rounds);
      HistoryOrderly(code, budget, rounds[..|rounds| - 1]);
      RoundOrderly(code, budget, rounds);
    }
  }

  lemma LastNews(code: Code, budget: nat, rounds: seq<Round>)
    requires rounds != [] && OrderlyNews(code, budget, rounds)
    ensures
      var front, r := rounds[..|rounds| - 1], rounds[|rounds| - 1];
      var prior := KeptRun(START, code, budget, front);
      && OrderlyNews(code, budget, front)
      && (prior.Ok? ==> AllInOrder(Numbering(|prior.value.history| + 1, r.noise), prior.value.history))
  {
    hide KeptRun, AllInOrder;
  }

  /** Lives move forward over every run of the protocol whose news is in order. */
  lemma ProtocolLivesMoveForward(code: Code, budget: nat, rounds: seq<Round>, env: Env, i: nat, j: nat, id: int)
    requires KeptRun(START, code, budget, rounds).Ok? && OrderlyNews(code, budget, rounds)
    requires Execute(env, KeptRun(START, code, budget, rounds).value.history).Ok?
    requires i <= j < |Trace(env, Split(KeptRun(START, code, budget, rounds).value.history))|
    ensures
      var trace := Trace(env, Split(KeptRun(START, code, budget, rounds).value.history));
      var earlier, later := PhaseOf(TrackerAt(trace, i), id), PhaseOf(TrackerAt(trace, j), id);
      Rank(earlier) <= Rank(later) && (Over(earlier) ==> later == earlier)
  {
    hide KeptRun, Trace, Split, OrderlyServer;
    HistoryOrderly(code, budget, rounds);
    LivesMoveForward(env, KeptRun(START, code, budget, rounds).value.history, i, j, id);
  }
}
