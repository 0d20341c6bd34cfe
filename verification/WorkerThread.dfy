/** The code of a worker thread (src/xv_th_pool.c), statement by statement, under interference.

    The object holds the shared memory of one worker: its queue, eventfd counter and flags.
    Between any two of the worker's atomic actions the other threads may take any steps, and
    epoll_wait may be interrupted; a script of this is an argument, and nothing is assumed
    about it.  `trace` records the interleaving that results, and `Valid` says that it is a run
    of the `Mailbox` protocol that ends in exactly this memory.  All that is proved of the
    protocol's runs therefore holds of this code.
 */
module WorkerThread {
  import opened LinkedQueue
  import opened Mailbox

  class Worker {
    const taskQueue: Queue<Task>
    var counter: nat
    var start: bool
    var loopStart: bool
    var ran: seq<Task>          // callbacks run
    var unsent: set<int>        // where the producers stand
    var stop: StopPhase         // where the stopper stands
    ghost var trace: seq<Step>

    ghost function Now(): State
      reads this
      requires Legal(INIT, trace)
    {
      Exec(INIT, trace)
    }

    ghost predicate Valid()
      reads this, taskQueue, taskQueue.Repr
    {
      && taskQueue.Valid() && this !in taskQueue.Repr
      && Legal(INIT, trace)
      && Matches(Now())
    }

    ghost predicate Matches(s: State)
      reads this, taskQueue, taskQueue.Repr
      requires taskQueue.Valid()
    {
      && taskQueue.Contents() == s.queue
      && counter == s.counter && start == s.start && loopStart == s.loopStart
      && ran == s.ran && unsent == s.unsent && stop == s.stop
    }

    // xv_worker_thread_init
    constructor ()
      ensures Valid() && trace == [] && fresh(taskQueue.Repr)
    {
      taskQueue := new Queue<Task>();
      counter, start, loopStart, ran, unsent, stop, trace := 0, false, true, [], {}, Live, [];
    }

    ghost method Record(step: Step)
      requires Legal(INIT, trace) && Enabled(Now(), step)
      modifies this`trace
      ensures trace == old(trace) + [step] && Legal(INIT, trace)
      ensures Now() == Apply(old(Now()), step)
    {
      ExecAppend(INIT, trace, step);
      trace := trace + [step];
    }

    // The worker's own action, with the progress it makes.
    ghost method Advance()
      requires Legal(INIT, trace) && CanWork(Now())
      modifies this`trace
      ensures trace == old(trace) + [Work] && Legal(INIT, trace)
      ensures Now() == WorkStep(old(Now()))
      ensures Measure(Now()) < Measure(old(Now()))
    {
      RunKeepsInvariant(INIT, trace);
      WorkStepFacts(Now());
      Record(Work);
    }

    // --------------------------------------------------------------------------------
    // Steps of the other threads
    // --------------------------------------------------------------------------------

    method Enqueue(producer: int, task: Task, leftover: Node?<Task>)
      requires Valid() && producer !in unsent
      modifies this, taskQueue.Repr
      ensures Valid() && fresh(taskQueue.Repr - old(taskQueue.Repr))
      ensures trace == old(trace) + [Push(producer, task)] && Now() == Apply(old(Now()), Push(producer, task))
    {
      taskQueue.Push(task, leftover);
      unsent := unsent + {producer};
      Record(Push(producer, task));
    }

    // xv_async_send by a producer: the result of the eventfd write is ignored.
    method AsyncSend(producer: int)
      requires Valid() && producer in unsent
      modifies this
      ensures Valid() && counter > 0
      ensures counter == if old(counter) < 0xFFFF_FFFF_FFFF_FFFE then old(counter) + 1 else old(counter)
      ensures trace == old(trace) + [Send(producer)] && Now() == Apply(old(Now()), Send(producer))
    {
      if counter < EVENTFD_MAX {
        counter := counter + 1;
      }
      unsent := unsent - {producer};
      Record(Send(producer));
    }

    // xv_worker_thread_stop
    method Stop()
      requires Valid()
      modifies this
      ensures Valid() && !start
      ensures trace == old(trace) + [ClearFlag] && Now() == Apply(old(Now()), ClearFlag)
    {
      start := false;
      if stop == Live {
        stop := FlagCleared;
      }
      Record(ClearFlag);
    }

    // The signal in xv_worker_thread_destroy
    method SendStop()
      requires Valid() && stop != Live
      modifies this
      ensures Valid() && counter > 0
      ensures counter == if old(counter) < 0xFFFF_FFFF_FFFF_FFFE then old(counter) + 1 else old(counter)
      ensures trace == old(trace) + [SignalStop] && Now() == Apply(old(Now()), SignalStop)
    {
      if counter < EVENTFD_MAX {
        counter := counter + 1;
      }
      stop := Signalled;
      Record(SignalStop);
    }

    // One step of another thread, if it can take it where it stands.
    method OtherStep(step: Step)
      requires Valid()
      modifies this, taskQueue.Repr
      ensures Valid() && fresh(taskQueue.Repr - old(taskQueue.Repr))
      ensures if ByOthers(step) && old(Enabled(Now(), step))
              then trace == old(trace) + [step] && Now() == Apply(old(Now()), step)
              else trace == old(trace) && unsent == old(unsent)
      ensures Now().phase == old(Now().phase)
      ensures forall p :: p in old(unsent) && step != Send(p) ==> p in unsent
    {
      match step {
        case Push(p, t) =>
          if p !in unsent { Enqueue(p, t, null); }
        case Send(p) =>
          if p in unsent { AsyncSend(p); }
        case ClearFlag => Stop();
        case SignalStop =>
          if stop != Live { SendStop(); }
        case _ =>
      }
    }

    // Any steps of the other threads; a step a thread cannot take where it stands is skipped, and
    // every other one is taken, in order.
    method Others(steps: seq<Step>)
      requires Valid()
      modifies this, taskQueue.Repr
      ensures Valid() && fresh(taskQueue.Repr - old(taskQueue.Repr))
      ensures Now().phase == old(Now().phase)
      ensures trace == old(trace) + Played(old(Now()), steps)
      ensures forall p :: p in old(unsent) && Send(p) !in steps ==> p in unsent
      decreases |steps|
    {
      if steps != [] {
        OtherStep(steps[0]);
        Others(steps[1..]);
      }
    }

    // A point where the other threads may run: one entry of the script, if any is left.
    method Yield(env: seq<seq<Step>>) returns (rest: seq<seq<Step>>)
      requires Valid()
      modifies this, taskQueue.Repr
      ensures Valid() && fresh(taskQueue.Repr - old(taskQueue.Repr))
      ensures Now().phase == old(Now().phase)
      ensures env != [] ==> rest == env[1..] && trace == old(trace) + Played(old(Now()), env[0])
      ensures env == [] ==> rest == [] && trace == old(trace)
    {
      rest := env;
      if env != [] {
        Others(env[0]);
        rest := env[1..];
      }
    }

    // --------------------------------------------------------------------------------
    // The worker's code
    // --------------------------------------------------------------------------------

    // xv_worker_thread_start; the others may run between the flag and the creation of the thread,
    // and may have stopped it by then.
    method Start(env: seq<Step>) returns (ok: bool)
      requires Valid() && (start || (Now().phase.NotStarted? && stop == Live))
      modifies this, taskQueue.Repr
      ensures Valid() && fresh(taskQueue.Repr - old(taskQueue.Repr)) && ok == !old(start)
      ensures !ok ==> trace == old(trace)
      ensures ok ==> trace == old(trace) + [SetStart] + Played(Apply(old(Now()), SetStart), env) + [Spawn]
      ensures ok ==> Now().phase.EntryCheck?
      ensures ok ==> (start <==> stop == Live)
    {
      if start {
        return false;
      }
      start := true;
      Record(SetStart);
      Others(env);
      Record(Spawn);
      RunKeepsInvariant(INIT, trace);
      ok := true;
    }

    // xv_worker_thread_push_task
    method PushTask(producer: int, task: Task, leftover: Node?<Task>, env: seq<Step>)
      requires Valid() && producer !in unsent && Send(producer) !in env
      modifies this, taskQueue.Repr
      ensures Valid() && fresh(taskQueue.Repr - old(taskQueue.Repr))
      ensures var push := Push(producer, task);
              trace == old(trace) + [push] + Played(Apply(old(Now()), push), env) + [Send(producer)]
      ensures counter > 0
    {
      Enqueue(producer, task, leftover);
      Others(env);
      AsyncSend(producer);
    }

    // Either the script got shorter or, alone, the worker came closer to rest.
    twostate predicate Progress(env: seq<seq<Step>>, rest: seq<seq<Step>>)
      reads this
      requires old(Legal(INIT, trace)) && Legal(INIT, trace)
    {
      old(trace) <= trace && |rest| <= |env|
      && (|rest| < |env| || Measure(Now()) < Measure(old(Now())))
    }

    // One action of the worker, then the next entry of the script, played in full.
    twostate predicate Acted(env: seq<seq<Step>>, rest: seq<seq<Step>>)
      reads this
      requires old(Legal(INIT, trace) && CanWork(Now()))
    {
      if env == [] then trace == old(trace) + [Work] && rest == []
      else trace == old(trace) + [Work] + Played(WorkStep(old(Now())), env[0]) && rest == env[1..]
    }

    // xv_concurrent_queue_size, then a chance for the others
    method CheckSize(env: seq<seq<Step>>) returns (n: int, rest: seq<seq<Step>>)
      requires Valid() && Now().phase.SizeCheck?
      modifies this, taskQueue.Repr
      ensures Valid() && fresh(taskQueue.Repr - old(taskQueue.Repr))
      ensures Now().phase == if n > 0 then Popping else FlagCheck
      ensures Acted(env, rest)
      ensures Progress(env, rest)
    {
      n := taskQueue.Size();
      Advance();
      rest := Yield(env);
    }

    // xv_concurrent_queue_pop
    method PopTask(env: seq<seq<Step>>) returns (task: Option<Task>, rest: seq<seq<Step>>)
      requires Valid() && Now().phase.Popping?
      modifies this, taskQueue.Repr
      ensures Valid() && fresh(taskQueue.Repr - old(taskQueue.Repr))
      ensures task.Some? && Now().phase == Running(task)
      ensures Acted(env, rest)
      ensures Progress(env, rest)
    {
      RunKeepsInvariant(INIT, trace);
      task := taskQueue.Pop();
      Advance();
      rest := Yield(env);
    }

    // The body of the drain loop after the pop
    method RunTask(task: Option<Task>, env: seq<seq<Step>>) returns (rest: seq<seq<Step>>)
      requires Valid() && Now().phase == Running(task)
      modifies this, taskQueue.Repr
      ensures Valid() && fresh(taskQueue.Repr - old(taskQueue.Repr))
      ensures Now().phase.SizeCheck?
      ensures Acted(env, rest)
      ensures Progress(env, rest)
    {
      if task.Some? && task.value.hasCb {
        ran := ran + [task.value];
      }
      Advance();
      rest := Yield(env);
    }

    // The flag check
    method ReadFlag(env: seq<seq<Step>>) returns (started: bool, rest: seq<seq<Step>>)
      requires Valid() && Now().phase.FlagCheck?
      modifies this, taskQueue.Repr
      ensures Valid() && fresh(taskQueue.Repr - old(taskQueue.Repr))
      ensures Now().phase == if started then LoopCheck else Breaking
      ensures Acted(env, rest)
      ensures Progress(env, rest)
    {
      started := start;
      Advance();
      rest := Yield(env);
    }

    // xv_loop_break
    method LoopBreak(env: seq<seq<Step>>) returns (rest: seq<seq<Step>>)
      requires Valid() && Now().phase.Breaking?
      modifies this, taskQueue.Repr
      ensures Valid() && fresh(taskQueue.Repr - old(taskQueue.Repr))
      ensures Now().phase.LoopCheck?
      ensures Acted(env, rest)
      ensures Progress(env, rest)
    {
      loopStart := false;
      Advance();
      rest := Yield(env);
    }

    // One iteration of the drain loop, up to the next size check
    method DrainOne(env: seq<seq<Step>>) returns (n: int, rest: seq<seq<Step>>)
      requires Valid() && Now().phase.Popping?
      modifies this, taskQueue.Repr
      ensures Valid() && fresh(taskQueue.Repr - old(taskQueue.Repr))
      ensures Now().phase == if n > 0 then Popping else FlagCheck
      ensures Progress(env, rest)
    {
      var task;
      task, rest := PopTask(env);
      rest := RunTask(task, rest);
      n, rest := CheckSize(rest);
    }

    // The flag check and what follows from it
    method CheckFlag(env: seq<seq<Step>>) returns (rest: seq<seq<Step>>)
      requires Valid() && Now().phase.FlagCheck?
      modifies this, taskQueue.Repr
      ensures Valid() && fresh(taskQueue.Repr - old(taskQueue.Repr))
      ensures Now().phase.LoopCheck?
      ensures Progress(env, rest)
    {
      var started;
      started, rest := ReadFlag(env);
      if !started {
        rest := LoopBreak(rest);
      }
    }

    // worker_async_cb: the drain loop, then the flag check.
    method WorkerAsyncCb(script: seq<seq<Step>>) returns (env: seq<seq<Step>>)
      requires Valid() && Now().phase.SizeCheck?
      modifies this, taskQueue.Repr
      ensures Valid() && fresh(taskQueue.Repr - old(taskQueue.Repr))
      ensures Now().phase.LoopCheck?
      ensures Progress(script, env)
    {
      var n;
      n, env := CheckSize(script);
      while n > 0
        invariant Valid() && fresh(taskQueue.Repr - old(taskQueue.Repr))
        invariant Now().phase == if n > 0 then Popping else FlagCheck
        invariant Progress(script, env)
        decreases |env|, Measure(Now())
      {
        n, env := DrainOne(env);
      }
      env := CheckFlag(env);
    }

    // The test of the loop in xv_loop_run
    method CheckLoop(env: seq<seq<Step>>) returns (run: bool, rest: seq<seq<Step>>)
      requires Valid() && Now().phase.LoopCheck?
      modifies this, taskQueue.Repr
      ensures Valid() && fresh(taskQueue.Repr - old(taskQueue.Repr))
      ensures Now().phase == if run then Polling else EntryCheck
      ensures Acted(env, rest)
      ensures Progress(env, rest)
    {
      run := loopStart;
      Advance();
      rest := Yield(env);
    }

    // epoll_wait returns and common_async_cb reads the eventfd
    method Wake(env: seq<seq<Step>>) returns (rest: seq<seq<Step>>)
      requires Valid() && Now().phase.Polling? && counter > 0
      modifies this, taskQueue.Repr
      ensures Valid() && fresh(taskQueue.Repr - old(taskQueue.Repr))
      ensures Now().phase.Woken?
      ensures Acted(env, rest)
      ensures Progress(env, rest)
    {
      Advance();
      rest := Yield(env);
    }

    method ReadEventfd(env: seq<seq<Step>>) returns (rest: seq<seq<Step>>)
      requires Valid() && Now().phase.Woken?
      modifies this, taskQueue.Repr
      ensures Valid() && fresh(taskQueue.Repr - old(taskQueue.Repr))
      ensures Now().phase.SizeCheck?
      ensures Acted(env, rest)
      ensures Progress(env, rest)
    {
      counter := 0;
      Advance();
      rest := Yield(env);
    }

    // xv_loop_poll with the eventfd readable, and the next test of the loop flag
    method PollOnce(env: seq<seq<Step>>) returns (run: bool, rest: seq<seq<Step>>)
      requires Valid() && Now().phase.Polling? && counter > 0
      modifies this, taskQueue.Repr
      ensures Valid() && fresh(taskQueue.Repr - old(taskQueue.Repr))
      ensures Now().phase == if run then Polling else EntryCheck
      ensures Progress(env, rest)
    {
      rest := Wake(env);
      rest := ReadEventfd(rest);
      rest := WorkerAsyncCb(rest);
      run, rest := CheckLoop(rest);
    }

    // epoll_wait returns empty-handed, on a signal: the loop tests its flag and polls again
    method PollInterrupted(env: seq<seq<Step>>) returns (run: bool, rest: seq<seq<Step>>)
      requires Valid() && Now().phase.Polling? && env != []
      modifies this, taskQueue.Repr
      ensures Valid() && fresh(taskQueue.Repr - old(taskQueue.Repr))
      ensures Now().phase == if run then Polling else EntryCheck
      ensures Progress(env, rest) && |rest| < |env|
    {
      Record(Interrupted);
      rest := Yield(env);
      run, rest := CheckLoop(rest);
    }

    // xv_loop_run: returns when the loop was broken, or is still asleep at the end of the script.
    method LoopRun(script: seq<seq<Step>>) returns (env: seq<seq<Step>>, asleep: bool)
      requires Valid() && Now().phase.LoopCheck?
      modifies this, taskQueue.Repr
      ensures Valid() && fresh(taskQueue.Repr - old(taskQueue.Repr))
      ensures if asleep then Blocked(Now()) && env == [] else Now().phase.EntryCheck?
      ensures Progress(script, env)
    {
      asleep := false;
      var run;
      run, env := CheckLoop(script);
      while run
        invariant Valid() && fresh(taskQueue.Repr - old(taskQueue.Repr))
        invariant Now().phase == if run then Polling else EntryCheck
        invariant Progress(script, env)
        decreases |env|, Measure(Now())
      {
        if env != [] && Interrupted in env[0] {
          run, env := PollInterrupted(env);
        } else if counter > 0 {
          run, env := PollOnce(env);
        } else if env == [] {
          asleep := true;
          return;
        } else {
          env := Yield(env);
        }
      }
    }

    // The test of the loop in worker_entry
    method CheckEntry(env: seq<seq<Step>>) returns (run: bool, rest: seq<seq<Step>>)
      requires Valid() && Now().phase.EntryCheck?
      modifies this, taskQueue.Repr
      ensures Valid() && fresh(taskQueue.Repr - old(taskQueue.Repr))
      ensures Now().phase == if run then LoopCheck else Exited
      ensures Acted(env, rest)
      ensures Progress(env, rest)
    {
      run := start;
      Advance();
      rest := Yield(env);
    }

    // worker_entry: whatever the others do, the thread ends, or sleeps once they have stopped
    // moving; asleep with every send completed, it has run every task ever pushed.
    method WorkerEntry(script: seq<seq<Step>>) returns (env: seq<seq<Step>>)
      requires Valid() && Now().phase.EntryCheck?
      modifies this, taskQueue.Repr
      ensures Valid() && fresh(taskQueue.Repr - old(taskQueue.Repr))
      ensures old(trace) <= trace
      ensures Now().phase.Exited? || (Blocked(Now()) && env == [])
      ensures Blocked(Now()) && unsent == {} ==> ran == Runnable(PushesOf(trace))
      ensures stop == Signalled ==> Now().phase.Exited?
    {
      var run;
      run, env := CheckEntry(script);
      while run
        invariant Valid() && fresh(taskQueue.Repr - old(taskQueue.Repr))
        invariant Now().phase == if run then LoopCheck else Exited
        invariant old(trace) <= trace
        decreases |env|, Measure(Now())
      {
        var asleep;
        env, asleep := LoopRun(env);
        if asleep {
          BlockedMeansDone(trace);
          StopHandshake(trace);
          RunKeepsInvariant(INIT, trace);
          return;
        }
        run, env := CheckEntry(env);
      }
    }
  }
}
