/** No lost wake-up, no deadlock, and a bound on every shutdown of the thread pool. */
module PoolProgress {
  import opened Base
  import opened ThreadPools
  import opened PoolSafety

  // ----- Someone can always move -----

  /** Some thread can take a step of its own accord. */
  ghost predicate CanMove(s: System) {
    || PollerMoves(s, None).Some?
    || CallerMoves(s).Some?
    || exists i :: 0 <= i < |s.workers| && WorkerMoves(s, i).Some?
  }

  lemma {:induction false} TotalSplit(ws: seq<Worker>, i: nat, weight: Worker -> nat)
    requires i < |ws|
    requires forall w :: weight(w) <= 1
    ensures Total(ws, weight) <= |ws|
    ensures Total(ws, weight) == 0 ==> weight(ws[i]) == 0
    ensures weight(ws[i]) == 0 ==> Total(ws, weight) < |ws|
  {
    if i > 0 {
      TotalSplit(ws[1..], i - 1, weight);
    } else if |ws| > 1 {
      TotalSplit(ws[1..], 0, weight);
    }
  }

  lemma {:induction false} GoneAreLeaving(ws: seq<Worker>)
    ensures Total(ws, Gone) <= Total(ws, Leaving)
  {
    if ws != [] {
      GoneAreLeaving(ws[1..]);
    }
  }

  lemma HolderMoves(s: System, thread: Thread)
    requires Exclusive(s) && s.mutex == Some(thread)
    ensures CanMove(s)
    ensures thread.AWorker? ==> thread.index < |s.workers| && WorkerMoves(s, thread.index).Some?
  {
    assert HoldsMutex(s, thread);
    if thread.AWorker? {
      assert WorkerMoves(s, thread.index).Some?;
    }
  }

  /** While the poller sleeps, a thread that is not idle can move, and if all are idle there is a job to take. */
  lemma WorkerMovesWhileAsleep(s: System)
    requires Sound(s) && s.poller.Waiting? && |s.workers| > 0
    ensures exists i :: 0 <= i < |s.workers| && WorkerMoves(s, i).Some?
  {
    assert HoldsMutex(s, ThePoller) <==> s.mutex == Some(ThePoller);
    assert HoldsMutex(s, TheCaller) <==> s.mutex == Some(TheCaller);
    if s.mutex.Some? {
      HolderMoves(s, s.mutex.value);
    } else {
      forall i | 0 <= i < |s.workers| ensures !s.workers[i].Signalling? && !s.workers[i].Releasing? {
        assert !HoldsMutex(s, AWorker(i));
      }
      FreeWorkerMoves(s, 0);
    }
  }

  lemma FreeWorkerMoves(s: System, k: nat)
    requires s.mutex.None? && k < |s.workers| && Conserved(s) && ExitsLast(s)
    requires s.pool.available <= 0 && s.caller.Running? && !s.poller.Enqueuing?
    requires forall i :: 0 <= i < |s.workers| ==> !s.workers[i].Signalling? && !s.workers[i].Releasing?
    ensures exists i :: 0 <= i < |s.workers| && WorkerMoves(s, i).Some?
  {
    GoneAreLeaving(s.workers);
    TotalSplit(s.workers, k, Gone);
    if s.pool.queue != [] {
      assert WorkerMoves(s, k).Some?;
    } else {
      TotalSplit(s.workers, k, InFlight);
      var w := s.workers[k];
      if InFlight(w) == 1 {
        assert WorkerMoves(s, k).Some?;
      }
    }
  }

  /** No deadlock: with at least one thread, some thread can move until `wait` has returned. */
  lemma NoDeadlock(s: System)
    requires Sound(s) && |s.workers| > 0
    ensures CanMove(s) || s.caller.Returned?
  {
    assert HoldsMutex(s, ThePoller) <==> s.mutex == Some(ThePoller);
    assert HoldsMutex(s, TheCaller) <==> s.mutex == Some(TheCaller);
    if s.mutex.Some? {
      HolderMoves(s, s.mutex.value);
    } else if s.poller.Waiting? {
      WorkerMovesWhileAsleep(s);
    } else if s.caller.Joining? && s.caller.joined < |s.workers| && !s.workers[s.caller.joined].Exited? {
      var j := s.caller.joined;
      assert !HoldsMutex(s, AWorker(j));
      if s.workers[j].Idle? {
        TotalSplit(s.workers, j, Leaving);
      }
      assert WorkerMoves(s, j).Some?;
    }
  }

  // ----- A sleep ends -----

  /** The steps that a worker still has to take for the job it holds. */
  function Rank(w: Worker): nat {
    match w
    case Idle => 0
    case Busy(_) => 6
    case Finished => 5
    case Releasing => 4
    case Signalling => 3
    case Exited => 0
  }

  function Load(s: System): nat { Total(s.workers, Rank) + 7 * |s.pool.queue| }

  lemma WorkerLoad(s: System, i: nat, t: System)
    requires i < |s.workers| && WorkerMoves(s, i) == Some(t)
    ensures Load(t) < Load(s)
    ensures s.workers[i].Signalling? ==> Load(t) + 3 == Load(s)
    ensures !s.workers[i].Signalling? ==> t.poller == s.poller
  {
    hide Total;
    assert t.workers == s.workers[i := t.workers[i]];
    TotalUpdate(s.workers, i, t.workers[i], Rank);
  }

  /** What can happen while the poller sleeps: the load of the workers, and one call of `stop`. */
  function Sleep(s: System): nat { Load(s) + if s.stopping then 0 else 1 }

  lemma StepAsleep(s: System, step: Step, t: System)
    requires Phased(s) && s.poller.Waiting? && Next(s, step) == Some(t) && !step.SpuriousWake?
    ensures Sleep(t) < Sleep(s)
    ensures t.poller.Woken? || t.poller.Waiting?
    ensures t.poller.Woken? <==> step.Work? && s.workers[step.index].Signalling?
  {
    hide Total;
    if step.Work? {
      WorkerLoad(s, step.index, t);
    }
  }

  /** No lost wake-up: while the poller sleeps some worker can move, and no interleaving gets past the load that it
      found without a signal that wakes the poller. */
  lemma {:induction false} SleepEnds(s: System, steps: seq<Step>, t: System)
    requires Sound(s) && s.poller.Waiting? && |s.workers| > 0
    requires Resume(s, steps) == Some(t)
    requires forall k :: 0 <= k < |steps| ==> !steps[k].SpuriousWake?
    ensures exists i :: 0 <= i < |s.workers| && WorkerMoves(s, i).Some?
    ensures |steps| > Sleep(s) ==> exists k :: 0 < k <= |steps| && Resume(s, steps[..k]).Some?
                                               && Resume(s, steps[..k]).value.poller.Woken?
    decreases |steps|
  {
    WorkerMovesWhileAsleep(s);
    if |steps| > Sleep(s) {
      hide Sound, WorkerMoves, Sleep;
      var n := Next(s, steps[0]).value;
      SoundKept(s, steps[0], n);
      SizeKept(s, steps[0], n);
      StepAsleep(s, steps[0], n);
      assert steps[..1][1..] == [];
      if n.poller.Woken? {
        assert Resume(s, steps[..1]) == Some(n);
      } else {
        SleepEnds(n, steps[1..], t);
        var k :| 0 < k <= |steps[1..]| && Resume(n, steps[1..][..k]).Some?
                 && Resume(n, steps[1..][..k]).value.poller.Woken?;
        assert steps[..k + 1][1..] == steps[1..][..k];
        assert Resume(s, steps[..k + 1]) == Resume(n, steps[1..][..k]);
      }
    }
  }

  /** The same of every reachable sleep; and its cause: the counter is at most zero, unless the signal is on its way. */
  lemma NoLostWakeUp(size: nat, before: seq<Step>, s: System, after: seq<Step>, t: System)
    requires size > 0
    requires Resume(Start(size), before) == Some(s) && s.poller.Waiting?
    requires Resume(s, after) == Some(t)
    requires forall k :: 0 <= k < |after| ==> !after[k].SpuriousWake?
    ensures s.pool.available <= 0 || exists i :: 0 <= i < |s.workers| && s.workers[i].Signalling?
    ensures exists i :: 0 <= i < |s.workers| && WorkerMoves(s, i).Some?
    ensures |after| > Sleep(s) ==> exists k :: 0 < k <= |after| && Resume(s, after[..k]).Some?
                                               && Resume(s, after[..k]).value.poller.Woken?
  {
    hide Next;
    StartSound(size);
    RunSound(Start(size), before, s);
    SleepEnds(s, after, t);
  }

  // ----- A shutdown ends -----

  function PollerRank(p: Poller): nat {
    match p
    case Entering => 11
    case Testing => 10
    case Waiting => 9
    case Woken => 11
    case Available => 1
    case Polling => 23
    case Holding(_) => 22
    case Reserving(_) => 21
    case Enqueuing(_) => 20
    case Stopped => 0
  }

  function CallerRank(c: Caller, size: nat): int {
    match c
    case Running => 11 * size + 3
    case Draining(k) => 10 * (size - k) + size + 2
    case ReservingExit(k) => 10 * (size - k) + size + 1
    case EnqueuingExit(k) => 10 * (size - k) + size
    case Joining(j) => size - j + 1
    case Returned => 0
  }

  /** A bound on the steps left once `stop` has been called. */
  function Remaining(s: System): int {
    Load(s) + PollerRank(s.poller) + CallerRank(s.caller, |s.workers|)
  }

  lemma RemainingIsNatural(s: System)
    requires Phased(s)
    ensures Remaining(s) >= 0
  {
  }

  lemma RemainingDecreases(s: System, step: Step, t: System)
    requires Phased(s) && s.stopping && Next(s, step) == Some(t)
    ensures t.stopping
    ensures step.SpuriousWake? ==> Remaining(t) == Remaining(s) + 2
    ensures !step.SpuriousWake? ==> Remaining(t) < Remaining(s)
  {
    if step.Work? {
      hide Load;
      WorkerLoad(s, step.index, t);
      assert |t.workers| == |s.workers|;
    } else {
      hide WorkerMoves, Total;
      assert t.workers == s.workers;
    }
  }

  /** How many wake-ups in a run had no signal behind them. */
  function Spurious(steps: seq<Step>): nat {
    if steps == [] then 0 else (if steps[0].SpuriousWake? then 1 else 0) + Spurious(steps[1..])
  }

  lemma {:induction false} RunBounded(s: System, steps: seq<Step>, t: System)
    requires Sound(s) && s.stopping && Resume(s, steps) == Some(t)
    ensures Sound(t) && t.stopping && |t.workers| == |s.workers|
    ensures |steps| + Remaining(t) <= Remaining(s) + 3 * Spurious(steps)
    decreases |steps|
  {
    hide Next, Remaining, Exclusive, Conserved, ExitsLast, TasksAccounted, Awake;
    if steps != [] {
      var n := Next(s, steps[0]).value;
      RemainingDecreases(s, steps[0], n);
      SoundKept(s, steps[0], n);
      SizeKept(s, steps[0], n);
      RunBounded(n, steps[1..], t);
    }
  }

  /** Shutdown terminates: after `stop`, every interleaving is bounded, up to wake-ups without a signal, and one that
      can go no further has returned from `wait`. */
  lemma ShutdownTerminates(size: nat, before: seq<Step>, s: System, after: seq<Step>, t: System)
    requires size > 0
    requires Resume(Start(size), before) == Some(s) && s.stopping
    requires Resume(s, after) == Some(t)
    ensures |after| <= Remaining(s) + 3 * Spurious(after)
    ensures CanMove(t) || t.caller.Returned?
  {
    hide Next, Remaining;
    StartSound(size);
    RunSound(Start(size), before, s);
    RunBounded(s, after, t);
    RemainingNatural(t);
    NoDeadlock(t);
  }

  lemma RemainingNatural(s: System)
    requires Sound(s)
    ensures Remaining(s) >= 0
  {
    RemainingIsNatural(s);
  }

  lemma {:induction false} DrainFrom(s: System) returns (steps: seq<Step>)
    requires Sound(s) && s.stopping && |s.workers| > 0
    ensures Resume(s, steps).Some? && Resume(s, steps).value.caller.Returned?
    decreases Remaining(s)
  {
    hide Exclusive, Conserved, ExitsLast, TasksAccounted, Awake, Remaining, PollerMoves, WorkerMoves;
    if s.caller.Returned? {
      return [];
    }
    NoDeadlock(s);
    var step := Wait;
    if PollerMoves(s, None).Some? {
      step := Poll(None);
    } else if CallerMoves(s).None? {
      var i :| 0 <= i < |s.workers| && WorkerMoves(s, i).Some?;
      step := Work(i);
    }
    var t := Next(s, step).value;
    SoundKept(s, step, t);
    SizeKept(s, step, t);
    RemainingDecreases(s, step, t);
    RemainingNatural(t);
    var rest := DrainFrom(t);
    steps := [step] + rest;
    assert steps[1..] == rest;
  }

  /** `wait` can return from wherever `stop` is called, exactly when the pool has a thread: without one the poller
      goes on waiting for an available thread. */
  lemma ShutdownNeedsAThread(size: nat, before: seq<Step>, s: System)
    requires Resume(Start(size), before) == Some(s) && s.stopping
    ensures size > 0 <==> exists after :: Resume(s, after).Some? && Resume(s, after).value.caller.Returned?
  {
    hide Next;
    StartSound(size);
    RunSound(Start(size), before, s);
    if size > 0 {
      var after := DrainFrom(s);
    } else {
      forall after | Resume(s, after).Some? ensures !Resume(s, after).value.caller.Returned? {
        RunSound(s, after, Resume(s, after).value);
      }
    }
  }
}
