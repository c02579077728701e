/** What the methods of the pool do is what its threads do step by step when no other thread moves in between. */
module PoolThreads {
  import opened Base
  import opened ThreadPools

  lemma {:induction false} ResumeAppend(s: System, a: seq<Step>, b: seq<Step>)
    requires Resume(s, a).Some?
    ensures Resume(s, a + b) == Resume(Resume(s, a).value, b)
    decreases |a|
  {
    hide Next;
    if a == [] {
      assert a + b == b;
    } else {
      assert (a + b)[1..] == a[1..] + b;
      ResumeAppend(Next(s, a[0]).value, a[1..], b);
    }
  }

  lemma ResumeThree(s: System, step: Step, t: System, u: System, v: System)
    requires Next(s, step) == Some(t) && Next(t, step) == Some(u) && Next(u, step) == Some(v)
    ensures Resume(s, [step, step, step]) == Some(v)
  {
    hide Next;
    ResumeTwo(t, step, u, v);
    assert [step, step, step][1..] == [step, step];
  }

  lemma ResumeTwo(s: System, step: Step, t: System, u: System)
    requires Next(s, step) == Some(t) && Next(t, step) == Some(u)
    ensures Resume(s, [step, step]) == Some(u)
  {
    hide Next;
    assert [step, step][1..] == [step] && [step][1..] == [];
    assert Resume(t, [step]) == Resume(u, []);
  }

  /** Three steps of the poller that holds a task are one call of `Schedule`. */
  lemma PollerSchedules(s: System, id: nat)
    requires s.poller == Holding(id) && s.mutex.None?
    ensures
      var after := Resume(s, [Poll(None), Poll(None), Poll(None)]);
      && after.Some?
      && after.value
         == s.(pool := s.pool.Reserve().Enqueue(Task(id)), poller := Entering, accepted := s.accepted + [id])
  {
    var t := Next(s, Poll(None)).value;
    var u := Next(t, Poll(None)).value;
    ResumeThree(s, Poll(None), t, u, Next(u, Poll(None)).value);
  }

  lemma CallerSchedules(s: System, sent: nat)
    requires s.caller == Draining(sent) && s.mutex.None? && sent < |s.workers|
    ensures
      Resume(s, [Wait, Wait, Wait]) == Some(s.(pool := s.pool.Reserve().Enqueue(Exit), caller := Draining(sent + 1)))
  {
    var t := Next(s, Wait).value;
    var u := Next(t, Wait).value;
    ResumeThree(s, Wait, t, u, Next(u, Wait).value);
  }

  /** The caller's steps up to the joins are one call of `ScheduleExits`. */
  lemma {:induction false} CallerSchedulesExits(s: System, sent: nat) returns (steps: seq<Step>)
    requires s.caller == Draining(sent) && s.mutex.None? && sent <= |s.workers|
    ensures forall k :: 0 <= k < |steps| ==> steps[k] == Wait
    ensures
      var n := |s.workers| - sent;
      Resume(s, steps) == Some(s.(pool := Shared(s.pool.available - n, s.pool.queue + Exits(n)),
                                  caller := Draining(|s.workers|)))
    decreases |s.workers| - sent
  {
    hide Next;
    var n := |s.workers| - sent;
    if n == 0 {
      assert s.pool.queue + Exits(0) == s.pool.queue;
      return [];
    }
    CallerSchedules(s, sent);
    var t := s.(pool := s.pool.Reserve().Enqueue(Exit), caller := Draining(sent + 1));
    var rest := CallerSchedulesExits(t, sent + 1);
    steps := [Wait, Wait, Wait] + rest;
    ResumeAppend(s, [Wait, Wait, Wait], rest);
    assert s.pool.queue + [Exit] + Exits(n - 1) == s.pool.queue + Exits(n);
  }

  /** One task of a worker: taken, run, and its place given back. */
  lemma WorkerRunsTask(s: System, i: nat)
    requires i < |s.workers| && s.workers[i].Idle? && s.mutex.None? && !s.poller.Waiting?
    requires s.pool.queue != [] && s.pool.queue[0].Task?
    ensures
      var id := s.pool.queue[0].id;
      Resume(s, [Work(i), Work(i), Work(i)] + [Work(i), Work(i)])
      == Some(s.(pool := s.pool.Dequeue().Release(), started := s.started + [id], ran := s.ran + [id]))
  {
    var step, job := Work(i), s.pool.queue[0];
    var t := s.(pool := s.pool.Dequeue(), workers := s.workers[i := Busy(job)], started := s.started + [job.id]);
    var u := t.(workers := t.workers[i := Finished], ran := s.ran + [job.id]);
    var v := u.(mutex := Some(AWorker(i)), workers := u.workers[i := Releasing]);
    var w := v.(pool := v.pool.Release(), workers := v.workers[i := Signalling]);
    var x := w.(mutex := None, workers := w.workers[i := Idle]);
    assert Next(s, step) == Some(t) && Next(t, step) == Some(u) && Next(u, step) == Some(v);
    assert Next(v, step) == Some(w) && Next(w, step) == Some(x) && x.workers == s.workers;
    ResumeThree(s, step, t, u, v);
    ResumeTwo(v, step, w, x);
    ResumeAppend(s, [step, step, step], [step, step]);
  }

  lemma WorkerLeaves(s: System, i: nat)
    requires i < |s.workers| && s.workers[i].Idle?
    requires s.pool.queue != [] && s.pool.queue[0].Exit?
    ensures
      Resume(s, [Work(i), Work(i)])
      == Some(s.(pool := s.pool.Dequeue(), workers := s.workers[i := Exited]))
  {
    var t := s.(pool := s.pool.Dequeue(), workers := s.workers[i := Busy(Exit)]);
    var u := t.(workers := t.workers[i := Exited]);
    assert s.started + [] == s.started && u.workers == s.workers[i := Exited];
    assert Next(s, Work(i)) == Some(t) && Next(t, Work(i)) == Some(u);
    ResumeTwo(s, Work(i), t, u);
  }

  /** A worker left alone, with a poller that does not sleep, does what `Poll` does. */
  lemma {:induction false} WorkerPolls(s: System, i: nat) returns (steps: seq<Step>)
    requires i < |s.workers| && s.workers[i].Idle? && s.mutex.None? && !s.poller.Waiting? && HasExit(s.pool.queue)
    ensures forall k :: 0 <= k < |steps| ==> steps[k] == Work(i)
    ensures
      var tasks := TasksAhead(s.pool.queue);
      Resume(s, steps)
      == Some(s.(pool := WorkAlone(s.pool), workers := s.workers[i := Exited],
                 started := s.started + tasks, ran := s.ran + tasks))
    decreases |s.pool.queue|
  {
    hide Next;
    var q := s.pool.queue;
    if q[0].Exit? {
      WorkerLeaves(s, i);
      assert s.started + [] == s.started && s.ran + [] == s.ran;
      return [Work(i), Work(i)];
    }
    WorkerRunsTask(s, i);
    var id := q[0].id;
    var t := s.(pool := s.pool.Dequeue().Release(), started := s.started + [id], ran := s.ran + [id]);
    var first := [Work(i), Work(i), Work(i)] + [Work(i), Work(i)];
    var rest := WorkerPolls(t, i);
    steps := first + rest;
    ResumeAppend(s, first, rest);
    var tasks := TasksAhead(q[1..]);
    assert s.started + [id] + tasks == s.started + ([id] + tasks);
    assert s.ran + [id] + tasks == s.ran + ([id] + tasks);
  }
}
