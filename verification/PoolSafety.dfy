/** What every interleaving of the thread pool keeps, and what has happened when `wait` returns. */
module PoolSafety {
  import opened Base
  import opened ThreadPools

  // ----- Counting workers -----

  function Total(ws: seq<Worker>, weight: Worker -> nat): nat {
    if ws == [] then 0 else weight(ws[0]) + Total(ws[1..], weight)
  }

  lemma {:induction false} TotalUpdate(ws: seq<Worker>, i: nat, w: Worker, weight: Worker -> nat)
    requires i < |ws|
    ensures Total(ws[i := w], weight) == Total(ws, weight) - weight(ws[i]) + weight(w)
    ensures weight(ws[i]) <= Total(ws, weight)
  {
    if i > 0 {
      TotalUpdate(ws[1..], i - 1, w, weight);
      assert ws[i := w][1..] == ws[1..][i - 1 := w];
    } else {
      assert ws[i := w][1..] == ws[1..];
    }
  }

  lemma {:induction false} TotalConstant(ws: seq<Worker>, c: nat, weight: Worker -> nat)
    requires forall i :: 0 <= i < |ws| ==> weight(ws[i]) == c
    ensures Total(ws, weight) == c * |ws|
  {
    if ws != [] {
      TotalConstant(ws[1..], c, weight);
      assert weight(ws[0]) == c;
    }
  }

  /** A job that has left the queue and whose thread has not given its place back yet. */
  function InFlight(w: Worker): nat {
    if w.Busy? || w.Finished? || w.Releasing? then 1 else 0
  }

  function Gone(w: Worker): nat { if w.Exited? then 1 else 0 }

  /** The worker has taken an exit job. */
  function Leaving(w: Worker): nat {
    if w.Exited? || w == Busy(Exit) then 1 else 0
  }

  /** The task that a worker is running. */
  function TaskOf(w: Worker): multiset<nat> {
    if w.Busy? && w.job.Task? then multiset{w.job.id} else multiset{}
  }

  function Running(ws: seq<Worker>): multiset<nat> {
    if ws == [] then multiset{} else TaskOf(ws[0]) + Running(ws[1..])
  }

  lemma {:induction false} RunningUpdate(ws: seq<Worker>, i: nat, w: Worker)
    requires i < |ws|
    ensures Running(ws[i := w]) + TaskOf(ws[i]) == Running(ws) + TaskOf(w)
  {
    hide TaskOf;
    if i == 0 {
      assert ws[i := w][1..] == ws[1..];
    } else {
      var head, rest, after := TaskOf(ws[0]), Running(ws[1..]), Running(ws[1..][i - 1 := w]);
      RunningUpdate(ws[1..], i - 1, w);
      assert after + TaskOf(ws[i]) == rest + TaskOf(w);
      assert ws[i := w][1..] == ws[1..][i - 1 := w] && ws[i := w][0] == ws[0];
      assert Running(ws[i := w]) == head + after && Running(ws) == head + rest;
      assert head + after + TaskOf(ws[i]) == head + (after + TaskOf(ws[i]));
    }
  }

  lemma {:induction false} NothingRunning(ws: seq<Worker>)
    requires forall i :: 0 <= i < |ws| ==> TaskOf(ws[i]) == multiset{}
    ensures Running(ws) == multiset{}
  {
    if ws != [] {
      NothingRunning(ws[1..]);
      assert TaskOf(ws[0]) == multiset{};
    }
  }

  // ----- Reading the queue -----

  function TasksOf(q: seq<Job>): seq<nat> {
    if q == [] then [] else (if q[0].Task? then [q[0].id] else []) + TasksOf(q[1..])
  }

  function ExitsOf(q: seq<Job>): nat {
    if q == [] then 0 else (if q[0].Exit? then 1 else 0) + ExitsOf(q[1..])
  }

  lemma {:induction false} QueueSnoc(q: seq<Job>, job: Job)
    ensures TasksOf(q + [job]) == TasksOf(q) + (if job.Task? then [job.id] else [])
    ensures ExitsOf(q + [job]) == ExitsOf(q) + (if job.Exit? then 1 else 0)
  {
    if q == [] {
      assert q + [job] == [job];
    } else {
      QueueSnoc(q[1..], job);
      assert (q + [job])[1..] == q[1..] + [job];
    }
  }

  lemma {:induction false} NoExits(q: seq<Job>)
    ensures ExitsOf(q) == 0 <==> forall i :: 0 <= i < |q| ==> q[i].Task?
    ensures ExitsOf(q) <= |q|
    ensures TasksOf(q) == [] <==> forall i :: 0 <= i < |q| ==> q[i].Exit?
    ensures TasksOf(q) == [] ==> ExitsOf(q) == |q|
  {
    if q != [] {
      NoExits(q[1..]);
      assert forall i :: 1 <= i < |q| ==> q[i] == q[1..][i - 1];
    }
  }

  // ----- The invariant -----

  /** How many exit jobs the caller has put into the queue. */
  function Sent(s: System): nat {
    match s.caller
    case Running => 0
    case Draining(k) => k
    case ReservingExit(k) => k
    case EnqueuingExit(k) => k
    case Joining(_) => |s.workers|
    case Returned => |s.workers|
  }

  /** Counted in the pool already, not in the queue yet. */
  function Reserved(s: System): nat {
    (if s.poller.Enqueuing? then 1 else 0) + (if s.caller.EnqueuingExit? then 1 else 0)
  }

  predicate HoldsMutex(s: System, thread: Thread) {
    match thread
    case ThePoller => s.poller.Testing? || s.poller.Reserving? || s.poller.Enqueuing?
    case TheCaller => s.caller.ReservingExit? || s.caller.EnqueuingExit?
    case AWorker(i) => i < |s.workers| && (s.workers[i].Releasing? || s.workers[i].Signalling?)
  }

  /** A thread is inside a critical section exactly when it holds the mutex. */
  ghost predicate Exclusive(s: System) {
    forall thread :: HoldsMutex(s, thread) <==> s.mutex == Some(thread)
  }

  /** The order of shutdown, and the counts that the caller's position implies. */
  predicate Phased(s: System) {
    && (s.poller.Stopped? ==> s.stopping)
    && (!s.caller.Running? ==> s.poller.Stopped?)
    && (s.caller.ReservingExit? || s.caller.EnqueuingExit? ==> Sent(s) < |s.workers|)
    && Sent(s) <= |s.workers|
    && (s.caller.Joining? ==> s.caller.joined <= |s.workers|)
    && (forall i :: 0 <= i < |s.workers| && (s.caller.Returned? || (s.caller.Joining? && i < s.caller.joined))
                ==> s.workers[i].Exited?)
  }

  /** `available_threads` is the number of threads that have neither a job nor a job reserved for them. */
  predicate Conserved(s: System) {
    && s.pool.available + |s.pool.queue| + Total(s.workers, InFlight) + Total(s.workers, Gone) + Reserved(s)
       == |s.workers|
    && (s.caller.Running? ==> s.pool.available >= 0)
    && (s.poller.Available? || s.poller.Polling? || s.poller.Holding? || s.poller.Reserving?
        ==> s.pool.available > 0)
    && (!s.poller.Entering? && !s.poller.Testing? && !s.poller.Waiting? && !s.poller.Woken? ==> |s.workers| > 0)
  }

  /** Every exit job is in the queue or taken, and none overtakes a task. */
  predicate ExitsLast(s: System) {
    var q := s.pool.queue;
    && ExitsOf(q) + Total(s.workers, Leaving) == Sent(s)
    && (forall i, j :: 0 <= i < j < |q| && q[i].Exit? ==> q[j].Exit?)
    && (Total(s.workers, Leaving) > 0 ==> forall i :: 0 <= i < |q| ==> q[i].Exit?)
  }

  /** Tasks start in the order in which they were accepted, and each one that started has run or is running. */
  predicate TasksAccounted(s: System) {
    && s.started + TasksOf(s.pool.queue) == s.accepted
    && multiset(s.ran) + Running(s.workers) == multiset(s.started)
  }

  /** The poller sleeps only while no thread is free, up to the one that is about to signal. */
  ghost predicate Awake(s: System) {
    s.poller.Waiting? && s.pool.available > 0 ==>
      exists i :: 0 <= i < |s.workers| && s.workers[i].Signalling?
  }

  ghost predicate Sound(s: System) {
    Exclusive(s) && Phased(s) && Conserved(s) && ExitsLast(s) && TasksAccounted(s) && Awake(s)
  }

  // ----- Each step keeps it -----

  lemma StartSound(size: nat)
    ensures Sound(Start(size))
  {
    var s := Start(size);
    TotalConstant(s.workers, 0, InFlight);
    TotalConstant(s.workers, 0, Gone);
    TotalConstant(s.workers, 0, Leaving);
    NothingRunning(s.workers);
  }

  lemma ExclusiveAt(s: System, step: Step, t: System, thread: Thread)
    requires Next(s, step) == Some(t)
    requires HoldsMutex(s, thread) <==> s.mutex == Some(thread)
    requires HoldsMutex(s, ThePoller) <==> s.mutex == Some(ThePoller)
    requires HoldsMutex(s, TheCaller) <==> s.mutex == Some(TheCaller)
    requires step.Work? ==> (HoldsMutex(s, AWorker(step.index)) <==> s.mutex == Some(AWorker(step.index)))
    ensures HoldsMutex(t, thread) <==> t.mutex == Some(thread)
  {
  }

  lemma ExclusiveKept(s: System, step: Step, t: System)
    requires Exclusive(s) && Next(s, step) == Some(t)
    ensures Exclusive(t)
  {
    hide Next, HoldsMutex;
    forall thread ensures HoldsMutex(t, thread) <==> t.mutex == Some(thread) {
      assert HoldsMutex(s, thread) <==> s.mutex == Some(thread);
      assert HoldsMutex(s, ThePoller) <==> s.mutex == Some(ThePoller);
      assert HoldsMutex(s, TheCaller) <==> s.mutex == Some(TheCaller);
      assert step.Work? ==> (HoldsMutex(s, AWorker(step.index)) <==> s.mutex == Some(AWorker(step.index)));
      ExclusiveAt(s, step, t, thread);
    }
  }

  lemma PhasedKept(s: System, step: Step, t: System)
    requires Phased(s) && Next(s, step) == Some(t)
    ensures Phased(t) && |t.workers| == |s.workers|
  {
  }

  lemma ConservedByWorker(s: System, i: nat, t: System)
    requires Exclusive(s) && Phased(s) && Conserved(s) && i < |s.workers| && WorkerMoves(s, i) == Some(t)
    ensures Conserved(t)
  {
    hide Total, Exclusive;
    assert t.workers == s.workers[i := t.workers[i]];
    TotalUpdate(s.workers, i, t.workers[i], InFlight);
    TotalUpdate(s.workers, i, t.workers[i], Gone);
  }

  lemma ConservedKept(s: System, step: Step, t: System)
    requires Exclusive(s) && Phased(s) && Conserved(s) && Next(s, step) == Some(t)
    ensures Conserved(t)
  {
    if step.Work? {
      ConservedByWorker(s, step.index, t);
    } else {
      hide WorkerMoves, Total;
      assert HoldsMutex(s, ThePoller) <==> s.mutex == Some(ThePoller);
      assert HoldsMutex(s, TheCaller) <==> s.mutex == Some(TheCaller);
    }
  }

  lemma ExitsLastByWorker(s: System, i: nat, t: System)
    requires Phased(s) && ExitsLast(s) && i < |s.workers| && WorkerMoves(s, i) == Some(t)
    ensures ExitsLast(t)
  {
    hide Total;
    var q := s.pool.queue;
    assert t.workers == s.workers[i := t.workers[i]];
    TotalUpdate(s.workers, i, t.workers[i], Leaving);
    if s.workers[i].Idle? {
      assert forall k :: 0 <= k < |q| - 1 ==> t.pool.queue[k] == q[k + 1];
    }
  }

  lemma ExitsLastKept(s: System, step: Step, t: System)
    requires Phased(s) && ExitsLast(s) && Next(s, step) == Some(t)
    ensures ExitsLast(t)
  {
    if step.Work? {
      ExitsLastByWorker(s, step.index, t);
    } else {
      hide WorkerMoves, Total, ExitsOf, TasksOf;
      var q := s.pool.queue;
      assert t.workers == s.workers;
      if step.Poll? && s.poller.Enqueuing? {
        QueueSnoc(q, Task(s.poller.id));
        NoExits(q);
        assert Sent(s) == 0 && Sent(t) == 0;
      } else if step.Wait? && s.caller.EnqueuingExit? {
        QueueSnoc(q, Exit);
      } else {
        assert t.pool.queue == q && Sent(t) == Sent(s);
      }
    }
  }

  lemma TaskLeavesQueue(s: System, i: nat, t: System)
    requires i < |s.workers| && s.workers[i].Idle? && WorkerMoves(s, i) == Some(t)
    ensures t.workers[i].Busy? && t.workers == s.workers[i := t.workers[i]]
    ensures t.ran == s.ran && t.accepted == s.accepted
    ensures var first := if t.workers[i].job.Task? then [t.workers[i].job.id] else [];
            && t.started == s.started + first
            && TasksOf(s.pool.queue) == first + TasksOf(t.pool.queue)
  {
  }

  lemma TaskStarts(s: System, i: nat, t: System)
    requires TasksAccounted(s) && i < |s.workers| && s.workers[i].Idle? && WorkerMoves(s, i) == Some(t)
    ensures TasksAccounted(t)
  {
    hide WorkerMoves, Running, TasksOf;
    TaskLeavesQueue(s, i, t);
    var v := t.workers[i];
    RunningUpdate(s.workers, i, v);
    var first := if v.job.Task? then [v.job.id] else [];
    assert s.started + (first + TasksOf(t.pool.queue)) == t.started + TasksOf(t.pool.queue);
    assert multiset(first) == TaskOf(v);
    Regroup(multiset(s.ran), Running(s.workers), multiset(first), Running(t.workers));
    assert multiset(s.started + first) == multiset(s.started) + multiset(first);
  }

  lemma OthersQueueNothing(s: System, i: nat, t: System)
    requires i < |s.workers| && !s.workers[i].Idle? && WorkerMoves(s, i) == Some(t)
    ensures t.pool.queue == s.pool.queue && t.started == s.started && t.accepted == s.accepted
    ensures t.workers == s.workers[i := t.workers[i]] && !t.workers[i].Busy?
    ensures t.ran == s.ran + if s.workers[i].Busy? && s.workers[i].job.Task? then [s.workers[i].job.id] else []
  {
  }

  lemma TaskEnds(s: System, i: nat, t: System)
    requires TasksAccounted(s) && i < |s.workers| && !s.workers[i].Idle? && WorkerMoves(s, i) == Some(t)
    ensures TasksAccounted(t)
  {
    hide WorkerMoves, Running, TasksOf;
    OthersQueueNothing(s, i, t);
    var w, v := s.workers[i], t.workers[i];
    RunningUpdate(s.workers, i, v);
    assert TaskOf(v) == multiset{};
    var done := if w.Busy? && w.job.Task? then [w.job.id] else [];
    assert multiset(done) == TaskOf(w);
    Regroup(multiset(s.ran), Running(t.workers), multiset(done), Running(s.workers));
    assert multiset(s.ran + done) == multiset(s.ran) + multiset(done);
  }

  lemma TasksByWorker(s: System, i: nat, t: System)
    requires TasksAccounted(s) && i < |s.workers| && WorkerMoves(s, i) == Some(t)
    ensures TasksAccounted(t)
  {
    if s.workers[i].Idle? {
      TaskStarts(s, i, t);
    } else {
      TaskEnds(s, i, t);
    }
  }

  lemma Regroup(ran: multiset<nat>, less: multiset<nat>, moved: multiset<nat>, more: multiset<nat>)
    requires more + multiset{} == less + moved || less + moved == more
    ensures more == less + moved && (moved == multiset{} ==> more == less)
    ensures ran + moved + less == ran + less + moved == ran + more
  {
  }

  lemma TasksAccountedKept(s: System, step: Step, t: System)
    requires TasksAccounted(s) && Next(s, step) == Some(t)
    ensures TasksAccounted(t)
  {
    if step.Work? {
      TasksByWorker(s, step.index, t);
    } else {
      OthersStartNothing(s, step, t);
    }
  }

  lemma OthersStartNothing(s: System, step: Step, t: System)
    requires !step.Work? && Next(s, step) == Some(t)
    requires s.started + TasksOf(s.pool.queue) == s.accepted
    ensures t.workers == s.workers && t.ran == s.ran && t.started == s.started
    ensures t.started + TasksOf(t.pool.queue) == t.accepted
  {
    hide WorkerMoves, TasksOf;
    var q := s.pool.queue;
    if step.Poll? && s.poller.Enqueuing? {
      QueueSnoc(q, Task(s.poller.id));
      assert s.started + (TasksOf(q) + [s.poller.id]) == s.started + TasksOf(q) + [s.poller.id];
    } else if step.Wait? && s.caller.EnqueuingExit? {
      QueueSnoc(q, Exit);
      assert TasksOf(q) + [] == TasksOf(q);
    }
  }

  lemma AwakeKept(s: System, step: Step, t: System)
    requires Exclusive(s) && Phased(s) && Awake(s) && Next(s, step) == Some(t)
    ensures Awake(t)
  {
    if s.poller.Waiting? && s.pool.available > 0 {
      var k :| 0 <= k < |s.workers| && s.workers[k].Signalling?;
      assert HoldsMutex(s, AWorker(k));
      if step.Work? {
        assert HoldsMutex(s, AWorker(step.index)) ==> step.index == k;
        if step.index != k {
          assert t.workers[k].Signalling?;
        }
      }
    } else if step.Work? && t.poller.Waiting? && t.pool.available > 0 {
      assert t.workers[step.index].Signalling?;
    }
  }

  lemma SoundKept(s: System, step: Step, t: System)
    requires Sound(s) && Next(s, step) == Some(t)
    ensures Sound(t)
  {
    ExclusiveKept(s, step, t);
    PhasedKept(s, step, t);
    ConservedKept(s, step, t);
    ExitsLastKept(s, step, t);
    TasksAccountedKept(s, step, t);
    AwakeKept(s, step, t);
  }

  lemma {:induction false} RunSound(s: System, steps: seq<Step>, t: System)
    requires Sound(s) && Resume(s, steps) == Some(t)
    ensures Sound(t) && |t.workers| == |s.workers|
    decreases |steps|
  {
    hide Sound, Next;
    if steps != [] {
      var n := Next(s, steps[0]).value;
      SoundKept(s, steps[0], n);
      SizeKept(s, steps[0], n);
      RunSound(n, steps[1..], t);
    }
  }

  lemma SizeKept(s: System, step: Step, t: System)
    requires Next(s, step) == Some(t)
    ensures |t.workers| == |s.workers|
  {
  }

  // ----- What was polled -----

  /** The tasks that the server handed out along an interleaving: whenever the poller was polling and found one. */
  function Polled(s: System, steps: seq<Step>): seq<nat>
    decreases |steps|
  {
    if steps == [] then []
    else
      var t := Next(s, steps[0]);
      if t.None? then []
      else
        (if s.poller.Polling? && steps[0].Poll? && steps[0].found.Some? then [steps[0].found.value] else [])
        + Polled(t.value, steps[1..])
  }

  /** The task between the poll and the queue. */
  function InHand(p: Poller): seq<nat> {
    match p
    case Holding(id) => [id]
    case Reserving(id) => [id]
    case Enqueuing(id) => [id]
    case _ => []
  }

  /** One step: what is polled is in hand, and what leaves the hand is accepted. */
  lemma StepAccepts(s: System, step: Step, t: System)
    requires Next(s, step) == Some(t)
    ensures
      t.accepted + InHand(t.poller)
      == s.accepted + InHand(s.poller)
         + (if s.poller.Polling? && step.Poll? && step.found.Some? then [step.found.value] else [])
  {
    hide WorkerMoves;
    if step.Work? {
      WorkerLeavesHand(s, step.index, t);
    }
  }

  lemma WorkerLeavesHand(s: System, i: nat, t: System)
    requires i < |s.workers| && WorkerMoves(s, i) == Some(t)
    ensures t.accepted == s.accepted && InHand(t.poller) == InHand(s.poller)
  {
  }

  lemma {:induction false} PolledIsAccepted(s: System, steps: seq<Step>, t: System)
    requires Resume(s, steps) == Some(t)
    ensures s.accepted + InHand(s.poller) + Polled(s, steps) == t.accepted + InHand(t.poller)
    decreases |steps|
  {
    hide Next, InHand;
    if steps != [] {
      var n := Next(s, steps[0]).value;
      var found := if s.poller.Polling? && steps[0].Poll? && steps[0].found.Some? then [steps[0].found.value] else [];
      StepAccepts(s, steps[0], n);
      PolledIsAccepted(n, steps[1..], t);
      assert s.accepted + InHand(s.poller) + (found + Polled(n, steps[1..]))
          == s.accepted + InHand(s.poller) + found + Polled(n, steps[1..]);
    }
  }

  // ----- What follows -----

  /** Nothing that was polled is dropped: at every point the tasks polled are, in order, those accepted and the one that
      the poller has in hand. */
  lemma TasksPolled(size: nat, steps: seq<Step>, s: System)
    requires Resume(Start(size), steps) == Some(s)
    ensures Polled(Start(size), steps) == s.accepted + InHand(s.poller)
  {
    hide Next;
    var start := Start(size);
    PolledIsAccepted(start, steps, s);
    assert start.accepted + InHand(start.poller) + Polled(start, steps) == Polled(start, steps);
  }

  /** Conservation and the bound: at every point of every interleaving the counter is the size less the jobs queued,
      in flight, reserved and the threads gone; and until shutdown there are never more jobs than threads. */
  lemma PoolConservation(size: nat, steps: seq<Step>, s: System)
    requires Resume(Start(size), steps) == Some(s)
    ensures s.pool.available
            == size - |s.pool.queue| - Total(s.workers, InFlight) - Total(s.workers, Gone) - Reserved(s)
    ensures s.caller.Running? ==> |s.pool.queue| + Total(s.workers, InFlight) + Reserved(s) <= size
  {
    hide Next;
    StartSound(size);
    RunSound(Start(size), steps, s);
  }

  /** Nothing is ever lost or done twice: at every point the tasks accepted are, in order, those started and those
      queued; and those started are the ones that ran and the ones running. */
  lemma TasksConserved(size: nat, steps: seq<Step>, s: System)
    requires Resume(Start(size), steps) == Some(s)
    ensures s.accepted == s.started + TasksOf(s.pool.queue)
    ensures multiset(s.started) == multiset(s.ran) + Running(s.workers)
  {
    hide Next;
    StartSound(size);
    RunSound(Start(size), steps, s);
  }

  /** When `wait` returns, the queue is empty, every thread has left on an exit job of its own, and every task that was
      ever polled has run exactly once, having started in the order of polling. */
  lemma GracefulShutdown(size: nat, steps: seq<Step>, s: System)
    requires Resume(Start(size), steps) == Some(s)
    requires s.caller.Returned?
    ensures s.pool.queue == []
    ensures |s.workers| == size && forall i :: 0 <= i < size ==> s.workers[i].Exited?
    ensures Total(s.workers, Leaving) == Sent(s) == size
    ensures s.started == s.accepted == Polled(Start(size), steps)
    ensures multiset(s.ran) == multiset(Polled(Start(size), steps))
  {
    hide *;
    StartSound(size);
    RunSound(Start(size), steps, s);
    StartSize(size);
    AllDone(s);
    TasksPolled(size, steps, s);
  }

  lemma StartSize(size: nat)
    ensures |Start(size).workers| == size
  {
  }

  lemma AllDone(s: System)
    requires Sound(s) && s.caller.Returned?
    ensures s.pool.queue == [] && InHand(s.poller) == []
    ensures forall i :: 0 <= i < |s.workers| ==> s.workers[i].Exited?
    ensures Total(s.workers, Leaving) == Sent(s) == |s.workers|
    ensures s.started == s.accepted && multiset(s.ran) == multiset(s.accepted)
  {
    TotalConstant(s.workers, 1, Leaving);
    NothingRunning(s.workers);
    NoExits(s.pool.queue);
  }
}
