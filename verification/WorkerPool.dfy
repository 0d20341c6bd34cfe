/** The worker pool (src/xv_th_pool.c): several mailboxes and the routing of tasks to them.

    A task with hash code `key` goes to worker `key % n`.  The pool's runs interleave the
    steps of all workers, all producers and all stoppers; `pushed` and `ran` record pushes and
    callback runs across the whole pool, in the order they happen.
 */
module WorkerPool {
  import M = Mailbox

  type Task = M.Task

  datatype Pool = Pool(workers: seq<M.State>, pushed: seq<Task>, ran: seq<Task>)

  datatype Step =
    | PushTask(producer: int, task: Task)     // xv_thread_pool_push_task, up to its send
    | Other(worker: nat, step: M.Step)        // any other step of one mailbox

  function Init(n: nat): Pool { Pool(seq(n, _ => M.INIT), [], []) }

  function Route(p: Pool, key: nat): (w: nat)
    requires p.workers != []
    ensures w < |p.workers|
  {
    key % |p.workers|
  }

  predicate Enabled(p: Pool, step: Step) {
    p.workers != [] &&
    match step
    case PushTask(producer, t) => M.Enabled(p.workers[Route(p, t.key)], M.Push(producer, t))
    case Other(w, s) => w < |p.workers| && !s.Push? && M.Enabled(p.workers[w], s)
  }

  // The callback that a step runs, if any.
  function Runs(s: M.State, step: M.Step): seq<Task> {
    if step.Work? && s.phase.Running? && s.phase.task.Some? && s.phase.task.value.hasCb
    then [s.phase.task.value] else []
  }

  function Apply(p: Pool, step: Step): Pool
    requires Enabled(p, step)
  {
    match step
    case PushTask(producer, t) =>
      var w := Route(p, t.key);
      Pool(p.workers[w := M.Apply(p.workers[w], M.Push(producer, t))], p.pushed + [t], p.ran)
    case Other(w, s) =>
      Pool(p.workers[w := M.Apply(p.workers[w], s)], p.pushed, p.ran + Runs(p.workers[w], s))
  }

  ghost predicate Legal(p: Pool, steps: seq<Step>)
    decreases |steps|
  {
    steps == [] || (Enabled(p, steps[0]) && Legal(Apply(p, steps[0]), steps[1..]))
  }

  ghost function Exec(p: Pool, steps: seq<Step>): Pool
    requires Legal(p, steps)
    decreases |steps|
  {
    if steps == [] then p else Exec(Apply(p, steps[0]), steps[1..])
  }

  // Those of a sequence of tasks with hash code `key`.
  ghost function ByKey(ts: seq<Task>, key: nat): seq<Task> {
    if ts == [] then []
    else
      var t := ts[|ts| - 1];
      ByKey(ts[..|ts| - 1], key) + (if t.key == key then [t] else [])
  }

  lemma ByKeyAppend(ts: seq<Task>, t: Task, key: nat)
    ensures ByKey(ts + [t], key) == ByKey(ts, key) + (if t.key == key then [t] else [])
  {
    assert (ts + [t])[..|ts|] == ts;
  }

  lemma {:induction false} ByKeyPrefix(ts: seq<Task>, us: seq<Task>, key: nat)
    requires ts <= us
    ensures ByKey(ts, key) <= ByKey(us, key)
    decreases |us|
  {
    if |ts| < |us| {
      var last := |us| - 1;
      assert us == us[..last] + [us[last]];
      ByKeyAppend(us[..last], us[last], key);
      ByKeyPrefix(ts, us[..last], key);
    } else {
      assert ts == us;
    }
  }

  lemma {:induction false} ByKeyRunnable(ts: seq<Task>, key: nat)
    ensures ByKey(M.Runnable(ts), key) == M.Runnable(ByKey(ts, key))
    decreases |ts|
  {
    if ts != [] {
      var last := |ts| - 1;
      var t := ts[last];
      ByKeyRunnable(ts[..last], key);
      if t.hasCb {
        ByKeyAppend(M.Runnable(ts[..last]), t, key);
      }
      if t.key == key {
        M.RunnableAppend(ByKey(ts[..last], key), t);
      }
      assert ByKey(M.Runnable(ts[..last]), key) + [] == ByKey(M.Runnable(ts[..last]), key);
      assert M.Runnable(ts[..last]) + [] == M.Runnable(ts[..last]);
      assert ByKey(ts[..last], key) + [] == ByKey(ts[..last], key);
    }
  }

  // ------------------------------------------------------------------------------------
  // Invariant
  // ------------------------------------------------------------------------------------

  ghost predicate Routed(ts: seq<Task>, w: nat, n: nat)
    requires n > 0
  {
    forall i :: 0 <= i < |ts| ==> ts[i].key % n == w
  }

  ghost predicate WorkerOk(p: Pool, w: nat)
    requires w < |p.workers|
  {
    M.Inv(p.workers[w]) && Routed(p.workers[w].pushed, w, |p.workers|)
  }

  // For each hash code, the pool-wide history is the history of the one worker that serves it.
  ghost predicate KeyOk(p: Pool, key: nat)
    requires p.workers != []
  {
    var w := p.workers[Route(p, key)];
    ByKey(p.pushed, key) == ByKey(w.pushed, key) && ByKey(p.ran, key) == ByKey(w.ran, key)
  }

  ghost predicate Inv(p: Pool) {
    && p.workers != []
    && (forall w :: 0 <= w < |p.workers| ==> WorkerOk(p, w))
    && (forall key: nat :: KeyOk(p, key))
  }

  lemma PushKeepsKey(p: Pool, producer: int, t: Task, key: nat)
    requires p.workers != [] && KeyOk(p, key) && Enabled(p, PushTask(producer, t))
    ensures KeyOk(Apply(p, PushTask(producer, t)), key)
  {
    ByKeyAppend(p.pushed, t, key);
    ByKeyAppend(p.workers[Route(p, t.key)].pushed, t, key);
  }

  lemma PushKeepsWorker(p: Pool, producer: int, t: Task, w: nat)
    requires w < |p.workers| && WorkerOk(p, w) && Enabled(p, PushTask(producer, t))
    ensures WorkerOk(Apply(p, PushTask(producer, t)), w)
  {
    if w == Route(p, t.key) {
      M.StepKeepsInv(p.workers[w], M.Push(producer, t));
    }
  }

  lemma PushKeepsInv(p: Pool, producer: int, t: Task)
    requires Inv(p) && Enabled(p, PushTask(producer, t))
    ensures Inv(Apply(p, PushTask(producer, t)))
  {
    var p' := Apply(p, PushTask(producer, t));
    forall w | 0 <= w < |p'.workers| ensures WorkerOk(p', w) {
      PushKeepsWorker(p, producer, t, w);
    }
    forall key: nat ensures KeyOk(p', key) {
      PushKeepsKey(p, producer, t, key);
    }
  }

  // What a worker runs is a task that was routed to it.
  lemma RunsOwnTask(p: Pool, w: nat)
    requires Inv(p) && w < |p.workers| && M.CanWork(p.workers[w])
    requires Runs(p.workers[w], M.Work) != []
    ensures var s := p.workers[w];
            var t := s.phase.task.value;
            t.key % |p.workers| == w && M.WorkStep(s).ran == s.ran + [t]
  {
    assert WorkerOk(p, w);
    var s := p.workers[w];
    assert s.pushed[|s.popped| - 1] == s.phase.task.value;
  }

  lemma OtherKeepsWorker(p: Pool, w: nat, step: M.Step, i: nat)
    requires i < |p.workers| && WorkerOk(p, i) && Enabled(p, Other(w, step))
    ensures WorkerOk(Apply(p, Other(w, step)), i)
  {
    if i == w {
      M.StepKeepsInv(p.workers[w], step);
      assert M.Apply(p.workers[w], step).pushed == p.workers[w].pushed;
    }
  }

  lemma OtherKeepsKey(p: Pool, w: nat, step: M.Step, key: nat)
    requires Inv(p) && Enabled(p, Other(w, step))
    ensures KeyOk(Apply(p, Other(w, step)), key)
  {
    var s := p.workers[w];
    assert KeyOk(p, key);
    assert M.Apply(s, step).pushed == s.pushed;
    if Runs(s, step) != [] {
      RunsOwnTask(p, w);
      ByKeyAppend(p.ran, s.phase.task.value, key);
      ByKeyAppend(s.ran, s.phase.task.value, key);
    } else {
      assert p.ran + [] == p.ran && M.Apply(s, step).ran == s.ran;
    }
  }

  lemma OtherKeepsInv(p: Pool, w: nat, step: M.Step)
    requires Inv(p) && Enabled(p, Other(w, step))
    ensures Inv(Apply(p, Other(w, step)))
  {
    var p' := Apply(p, Other(w, step));
    forall i | 0 <= i < |p'.workers| ensures WorkerOk(p', i) {
      OtherKeepsWorker(p, w, step, i);
    }
    forall key: nat ensures KeyOk(p', key) {
      OtherKeepsKey(p, w, step, key);
    }
  }

  lemma {:induction false} RunKeepsInvariant(p: Pool, steps: seq<Step>)
    requires Inv(p) && Legal(p, steps)
    ensures Inv(Exec(p, steps)) && |Exec(p, steps).workers| == |p.workers|
    decreases |steps|
  {
    if steps != [] {
      match steps[0] {
        case PushTask(producer, t) => PushKeepsInv(p, producer, t);
        case Other(w, s) => OtherKeepsInv(p, w, s);
      }
      RunKeepsInvariant(Apply(p, steps[0]), steps[1..]);
    }
  }

  lemma InitOk(n: nat)
    requires n > 0
    ensures Inv(Init(n))
  {
    var p := Init(n);
    forall w | 0 <= w < n ensures WorkerOk(p, w) {
      assert p.workers[w] == M.INIT;
    }
    forall key: nat ensures KeyOk(p, key) {
      assert p.workers[Route(p, key)] == M.INIT;
    }
  }

  // The tasks that the pushes of a run hand over, in order: read off the steps alone.
  ghost function PushesOf(steps: seq<Step>): seq<Task> {
    if steps == [] then []
    else (if steps[0].PushTask? then [steps[0].task] else []) + PushesOf(steps[1..])
  }

  lemma StepPushed(p: Pool, step: Step)
    requires Enabled(p, step)
    ensures Apply(p, step).pushed == p.pushed + (if step.PushTask? then [step.task] else [])
  {}

  lemma Joined(a: seq<Task>, b: seq<Task>, c: seq<Task>)
    ensures (a + b) + c == a + (b + c)
  {}

  lemma {:induction false} PushedExactly(p: Pool, steps: seq<Step>)
    requires Legal(p, steps)
    ensures Exec(p, steps).pushed == p.pushed + PushesOf(steps)
    decreases |steps|
  {
    if steps != [] {
      StepPushed(p, steps[0]);
      PushedExactly(Apply(p, steps[0]), steps[1..]);
      Joined(p.pushed, if steps[0].PushTask? then [steps[0].task] else [], PushesOf(steps[1..]));
    }
  }

  lemma Reachable(n: nat, steps: seq<Step>)
    requires n > 0 && Legal(Init(n), steps)
    ensures var p := Exec(Init(n), steps);
            Inv(p) && |p.workers| == n && p.pushed == PushesOf(steps)
  {
    InitOk(n);
    RunKeepsInvariant(Init(n), steps);
    PushedExactly(Init(n), steps);
    assert [] + PushesOf(steps) == PushesOf(steps);
  }

  // ------------------------------------------------------------------------------------
  // Ordering
  // ------------------------------------------------------------------------------------

  // Every task pushed for a hash code is in the history of the worker key % n, and that worker
  // has it queued or has popped it.
  lemma PushedTaskArrives(n: nat, steps: seq<Step>, key: nat)
    requires n > 0 && Legal(Init(n), steps)
    ensures var p := Exec(Init(n), steps);
            && |p.workers| == n
            && var s := p.workers[key % n];
               ByKey(PushesOf(steps), key) == ByKey(s.pushed, key) && s.pushed == s.popped + s.queue
  {
    Reachable(n, steps);
    assert KeyOk(Exec(Init(n), steps), key) && WorkerOk(Exec(Init(n), steps), key % n);
  }

  // Tasks with the same hash code run in the order they were pushed, whatever the number of
  // workers and however they interleave.
  lemma PerKeyOrder(n: nat, steps: seq<Step>, key: nat)
    requires n > 0 && Legal(Init(n), steps)
    ensures var p := Exec(Init(n), steps);
            ByKey(p.ran, key) <= ByKey(M.Runnable(PushesOf(steps)), key)
  {
    Reachable(n, steps);
    var p := Exec(Init(n), steps);
    var w := Route(p, key);
    var s := p.workers[w];
    assert KeyOk(p, key) && WorkerOk(p, w);
    M.RanIsPrefix(s);
    ByKeyPrefix(s.ran, M.Runnable(s.pushed), key);
    ByKeyRunnable(s.pushed, key);
    ByKeyRunnable(p.pushed, key);
  }

  // When every worker sleeps and no producer is mid-way, everything pushed has run, and each
  // hash code's tasks ran in exactly their push order.
  lemma QuiescentPoolIsDone(n: nat, steps: seq<Step>, key: nat)
    requires n > 0 && Legal(Init(n), steps)
    requires var p := Exec(Init(n), steps);
             forall w :: 0 <= w < |p.workers| ==> M.Blocked(p.workers[w]) && p.workers[w].unsent == {}
    ensures var p := Exec(Init(n), steps);
            ByKey(p.ran, key) == ByKey(M.Runnable(PushesOf(steps)), key)
  {
    Reachable(n, steps);
    var p := Exec(Init(n), steps);
    var w := Route(p, key);
    assert KeyOk(p, key) && WorkerOk(p, w);
    M.BlockedIsDone(p.workers[w]);
    ByKeyRunnable(p.workers[w].pushed, key);
    ByKeyRunnable(p.pushed, key);
  }

  // ------------------------------------------------------------------------------------
  // The service's use of the pool
  // ------------------------------------------------------------------------------------

  // process_read_buffer passes the comparison `address > 16` as the hash code.
  function ServiceKey(address: nat): nat { if address > 16 then 1 else 0 }

  ghost predicate ServiceSteps(steps: seq<Step>) {
    forall i :: 0 <= i < |steps| && steps[i].PushTask? ==>
      exists address: nat :: address > 16 && steps[i].task.key == ServiceKey(address)
  }

  lemma {:induction false} ServicePushes(p: Pool, steps: seq<Step>)
    requires Legal(p, steps) && ServiceSteps(steps)
    requires forall i :: 0 <= i < |p.pushed| ==> p.pushed[i].key == 1
    ensures forall i :: 0 <= i < |Exec(p, steps).pushed| ==> Exec(p, steps).pushed[i].key == 1
    decreases |steps|
  {
    if steps != [] {
      assert forall i :: 0 <= i < |steps[1..]| ==> steps[1..][i] == steps[i + 1];
      ServicePushes(Apply(p, steps[0]), steps[1..]);
    }
  }

  lemma {:induction false} OneKeyOnly(ts: seq<Task>)
    requires forall i :: 0 <= i < |ts| ==> ts[i].key == 1
    ensures ByKey(ts, 1) == ts
    decreases |ts|
  {
    if ts != [] {
      OneKeyOnly(ts[..|ts| - 1]);
      assert ts == ts[..|ts| - 1] + [ts[|ts| - 1]];
    }
  }

  lemma {:induction false} OtherKeyEmpty(ts: seq<Task>, key: nat)
    requires key != 1 && forall i :: 0 <= i < |ts| ==> ts[i].key == 1
    ensures ByKey(ts, key) == []
    decreases |ts|
  {
    if ts != [] {
      OtherKeyEmpty(ts[..|ts| - 1], key);
    }
  }

  lemma {:induction false} ByKeyFinds(ts: seq<Task>, i: nat)
    requires i < |ts|
    ensures ByKey(ts, ts[i].key) != []
    decreases |ts|
  {
    if i < |ts| - 1 {
      ByKeyFinds(ts[..|ts| - 1], i);
    }
  }

  // In the service every task lands on worker 1 % n: the other workers never receive one,
  // and all tasks run in one global order, the order of their pushes.
  lemma ServiceTotalOrder(n: nat, steps: seq<Step>)
    requires n > 0 && Legal(Init(n), steps) && ServiceSteps(steps)
    ensures var p := Exec(Init(n), steps);
            p.ran <= M.Runnable(PushesOf(steps))
    ensures var p := Exec(Init(n), steps);
            && |p.workers| == n && p.workers[1 % n].pushed == PushesOf(steps)
            && (forall w :: 0 <= w < |p.workers| && w != 1 % n ==> p.workers[w].pushed == [])
  {
    var p := Exec(Init(n), steps);
    ServicePushes(Init(n), steps);
    Reachable(n, steps);
    forall i | 0 <= i < |p.ran| ensures p.ran[i].key == 1 {
      var key := p.ran[i].key;
      ByKeyFinds(p.ran, i);
      PerKeyOrder(n, steps, key);
      ByKeyRunnable(p.pushed, key);
      if key != 1 { OtherKeyEmpty(p.pushed, key); }
    }
    OneKeyOnly(p.ran);
    OneKeyOnly(p.pushed);
    PerKeyOrder(n, steps, 1);
    ByKeyRunnable(p.pushed, 1);
    IdleWorkers(n, steps);
    BusyWorker(n, steps);
  }

  lemma BusyWorker(n: nat, steps: seq<Step>)
    requires n > 0 && Legal(Init(n), steps)
    requires forall i :: 0 <= i < |Exec(Init(n), steps).pushed| ==> Exec(Init(n), steps).pushed[i].key == 1
    ensures var p := Exec(Init(n), steps);
            |p.workers| == n && p.workers[1 % n].pushed == p.pushed
  {
    Reachable(n, steps);
    var p := Exec(Init(n), steps);
    var ts := p.workers[1 % n].pushed;
    assert KeyOk(p, 1) && WorkerOk(p, 1 % n);
    forall i | 0 <= i < |ts| ensures ts[i].key == 1 {
      var key := ts[i].key;
      assert key % n == 1 % n && KeyOk(p, key);
      ByKeyFinds(ts, i);
      if key != 1 { OtherKeyEmpty(p.pushed, key); }
    }
    OneKeyOnly(ts);
    OneKeyOnly(p.pushed);
  }

  lemma IdleWorkers(n: nat, steps: seq<Step>)
    requires n > 0 && Legal(Init(n), steps)
    requires forall i :: 0 <= i < |Exec(Init(n), steps).pushed| ==> Exec(Init(n), steps).pushed[i].key == 1
    ensures var p := Exec(Init(n), steps);
            forall w :: 0 <= w < |p.workers| && w != 1 % n ==> p.workers[w].pushed == []
  {
    InitOk(n);
    RunKeepsInvariant(Init(n), steps);
    var p := Exec(Init(n), steps);
    forall w | 0 <= w < |p.workers| && w != 1 % n ensures p.workers[w].pushed == [] {
      var ts := p.workers[w].pushed;
      if ts != [] {
        assert WorkerOk(p, w) && KeyOk(p, ts[0].key);
        ByKeyFinds(ts, 0);
        OtherKeyEmpty(p.pushed, ts[0].key);
      }
    }
  }
}
