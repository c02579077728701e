/**
 * The thread pool, its single poller and the shutdown protocol, as a system of interleaved threads.
 * A step is what one thread does between two points at which another thread can be scheduled: the mutex,
 * the condition variable and the job queue are explicit, so that the critical sections are not atomic by
 * fiat, and a worker can pop a job while the poller is in the middle of `schedule`.
 */
module ThreadPools {
  import opened Base

  /** A block handed to `schedule`: one polled task, or the `throw` that ends a worker thread. */
  datatype Job = Task(id: nat) | Exit

  /** The fields that all threads share. `Queue` is safe on its own; the counter is guarded by the mutex. */
  datatype Shared = Shared(available: int, queue: seq<Job>) {
    function Reserve(): Shared { this.(available := available - 1) }

    function Enqueue(job: Job): Shared { this.(queue := queue + [job]) }

    function Dequeue(): Shared
      requires queue != []
    {
      this.(queue := queue[1..])
    }

    function Release(): Shared { this.(available := available + 1) }
  }

  /** Where a worker thread is in `poll`. `Releasing` and `Signalling` are inside the mutex. */
  datatype Worker = Idle | Busy(job: Job) | Finished | Releasing | Signalling | Exited

  /** Where the poller thread is in `poll_loop`. `Testing`, `Reserving` and `Enqueuing` are inside the mutex. */
  datatype Poller =
    | Entering
    | Testing
    | Waiting
    | Woken
    | Available
    | Polling
    | Holding(id: nat)
    | Reserving(id: nat)
    | Enqueuing(id: nat)
    | Stopped

  /** Where the thread that calls `wait` is. The two `Exit` states are inside the mutex. */
  datatype Caller =
    | Running
    | Draining(sent: nat)
    | ReservingExit(sent: nat)
    | EnqueuingExit(sent: nat)
    | Joining(joined: nat)
    | Returned

  datatype Thread = ThePoller | TheCaller | AWorker(index: nat)

  /** The whole system. The last three fields record what happened and are read by no thread. */
  datatype System = System(
    pool: Shared,
    mutex: Option<Thread>,
    workers: seq<Worker>,
    poller: Poller,
    caller: Caller,
    stopping: bool,
    accepted: seq<nat>,
    started: seq<nat>,
    ran: seq<nat>)

  function Start(size: nat): System {
    System(Shared(size, []), None, seq(size, _ => Idle), Entering, Running, false, [], [], [])
  }


  /** The poller's next step, none when it is blocked. `found` is what `poll_for_task` would return. */
  function PollerMoves(s: System, found: Option<nat>): Option<System> {
    match s.poller
    case Entering | Woken =>
      if s.mutex.None? then Some(s.(mutex := Some(ThePoller), poller := Testing)) else None
    case Testing =>
      Some(s.(mutex := None, poller := if s.pool.available <= 0 then Waiting else Available))
    case Waiting => None
    case Available => Some(s.(poller := if s.stopping then Stopped else Polling))
    case Polling => Some(s.(poller := if found.Some? then Holding(found.value) else Entering))
    case Holding(id) =>
      if s.mutex.None? then Some(s.(mutex := Some(ThePoller), poller := Reserving(id))) else None
    case Reserving(id) => Some(s.(pool := s.pool.Reserve(), poller := Enqueuing(id)))
    case Enqueuing(id) =>
      Some(s.(pool := s.pool.Enqueue(Task(id)), accepted := s.accepted + [id], mutex := None, poller := Entering))
    case Stopped => None
  }

  /** The next step of worker `i`. A task that raises ends like any other; the exit job leaves the loop. */
  function WorkerMoves(s: System, i: nat): Option<System>
    requires i < |s.workers|
  {
    match s.workers[i]
    case Idle =>
      if s.pool.queue == [] then None
      else
        var job := s.pool.queue[0];
        Some(s.(pool := s.pool.Dequeue(),
                workers := s.workers[i := Busy(job)],
                started := s.started + if job.Task? then [job.id] else []))
    case Busy(Task(id)) => Some(s.(workers := s.workers[i := Finished], ran := s.ran + [id]))
    case Busy(Exit) => Some(s.(workers := s.workers[i := Exited]))
    case Finished =>
      if s.mutex.None? then Some(s.(mutex := Some(AWorker(i)), workers := s.workers[i := Releasing])) else None
    case Releasing => Some(s.(pool := s.pool.Release(), workers := s.workers[i := Signalling]))
    case Signalling =>
      Some(s.(mutex := None,
              workers := s.workers[i := Idle],
              poller := if s.poller.Waiting? then Woken else s.poller))
    case Exited => None
  }

  /** The next step of `wait`: join the poller, schedule one exit job for each thread, join every thread. */
  function CallerMoves(s: System): Option<System> {
    match s.caller
    case Running => if s.poller.Stopped? then Some(s.(caller := Draining(0))) else None
    case Draining(sent) =>
      if sent >= |s.workers| then Some(s.(caller := Joining(0)))
      else if s.mutex.None? then Some(s.(mutex := Some(TheCaller), caller := ReservingExit(sent)))
      else None
    case ReservingExit(sent) => Some(s.(pool := s.pool.Reserve(), caller := EnqueuingExit(sent)))
    case EnqueuingExit(sent) =>
      Some(s.(pool := s.pool.Enqueue(Exit), mutex := None, caller := Draining(sent + 1)))
    case Joining(joined) =>
      if joined >= |s.workers| then Some(s.(caller := Returned))
      else if s.workers[joined].Exited? then Some(s.(caller := Joining(joined + 1)))
      else None
    case Returned => None
  }

  /** Who is scheduled next. `Stop` is a call of `stop`; a condition variable may also wake for no reason. */
  datatype Step = Poll(found: Option<nat>) | Work(index: nat) | Wait | Stop | SpuriousWake

  function Next(s: System, step: Step): Option<System> {
    match step
    case Poll(found) => PollerMoves(s, found)
    case Work(i) => if i < |s.workers| then WorkerMoves(s, i) else None
    case Wait => CallerMoves(s)
    case Stop => if s.stopping then None else Some(s.(stopping := true))
    case SpuriousWake => if s.poller.Waiting? then Some(s.(poller := Woken)) else None
  }

  /** The state after an interleaving, none when one of its steps was not enabled. */
  function Resume(s: System, steps: seq<Step>): Option<System>
    decreases |steps|
  {
    if steps == [] then Some(s)
    else
      var t := Next(s, steps[0]);
      if t.None? then None else Resume(t.value, steps[1..])
  }

  function Exits(n: nat): seq<Job> { seq(n, _ => Exit) }

  /** An exit job waits in the queue. */
  predicate HasExit(q: seq<Job>) { exists i :: 0 <= i < |q| && q[i].Exit? }

  /** The tasks before the first exit job. */
  function TasksAhead(q: seq<Job>): seq<nat> {
    if q == [] || q[0].Exit? then [] else [q[0].id] + TasksAhead(q[1..])
  }

  /** The pool after one thread, left alone, has worked until its exit job: each task gives its place back. */
  function WorkAlone(pool: Shared): Shared
    requires HasExit(pool.queue)
    decreases |pool.queue|
  {
    var rest := pool.Dequeue();
    if pool.queue[0].Exit? then rest else WorkAlone(rest.Release())
  }

  lemma NextJob(pool: Shared)
    requires HasExit(pool.queue)
    ensures pool.queue != []
    ensures
      var q := pool.queue;
      if q[0].Exit? then WorkAlone(pool) == pool.Dequeue() && TasksAhead(q) == []
      else
        && HasExit(q[1..]) && TasksAhead(q) == [q[0].id] + TasksAhead(q[1..])
        && WorkAlone(pool) == WorkAlone(pool.Dequeue().Release())
  {
  }

  /** The pool as the object that the threads share; each method is what one thread does, run alone. */
  class ThreadPool {
    const size: nat
    var available: int
    var queue: seq<Job>

    function State(): Shared
      reads this
    {
      Shared(available, queue)
    }

    constructor (size: nat)
      ensures this.size == size
      ensures State() == Start(size).pool
    {
      this.size := size;
      available := size;
      queue := [];
    }

    method Schedule(job: Job)
      modifies this
      ensures State() == old(State()).Reserve().Enqueue(job)
    {
      available := available - 1;
      queue := queue + [job];
    }

    method Pop() returns (job: Job)
      requires queue != []
      modifies `queue
      ensures job == old(queue)[0] && State() == old(State()).Dequeue()
    {
      job := queue[0];
      queue := queue[1..];
    }

    method Release()
      modifies `available
      ensures State() == old(State()).Release()
    {
      available := available + 1;
    }

    /** `poll`: takes and runs jobs until the exit job. */
    method Poll() returns (ran: seq<nat>)
      requires HasExit(queue)
      modifies this
      ensures State() == WorkAlone(old(State())) && ran == TasksAhead(old(queue))
    {
      hide WorkAlone, TasksAhead, HasExit;
      ran := [];
      NextJob(State());
      var job := Pop();
      while job.Task?
        invariant job.Task? ==> HasExit(queue) && WorkAlone(State().Release()) == WorkAlone(old(State()))
        invariant job.Task? ==> ran + ([job.id] + TasksAhead(queue)) == TasksAhead(old(queue))
        invariant job.Exit? ==> State() == WorkAlone(old(State())) && ran == TasksAhead(old(queue))
        decreases |queue|, job.Task?
      {
        ran := ran + [job.id];
        Release();
        NextJob(State());
        job := Pop();
      }
    }

    /** The first half of `shutdown`. */
    method ScheduleExits()
      modifies this
      ensures queue == old(queue) + Exits(size) && available == old(available) - size
    {
      var i := 0;
      while i < size
        invariant 0 <= i <= size
        invariant queue == old(queue) + Exits(i) && available == old(available) - i
      {
        Schedule(Exit);
        i := i + 1;
      }
    }
  }
}
