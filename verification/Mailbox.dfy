/** The cross-thread mailbox of a worker thread (src/xv_th_pool.c, src/xv_async.c).

    A mutex-protected task queue, an eventfd that wakes the worker, a drain loop
    `while (size > 0) pop`, and a `start` flag.  The protocol is a state machine whose
    steps are the atomic actions of the code, and its runs are all interleavings of any
    number of producers, one worker and one stopper.
 */
module Mailbox {
  import opened LinkedQueue

  // `hasCb` is false for a task whose callback is NULL: it is popped and not run.
  datatype Task = Task(key: nat, args: int, hasCb: bool)

  // The largest value an eventfd counter holds; a write beyond it fails.
  const EVENTFD_MAX: nat := 0xFFFF_FFFF_FFFF_FFFE

  datatype Phase =
    | NotStarted
    | Starting                       // start flag set, thread not yet created
    | EntryCheck                     // worker_entry: about to read thread->start
    | LoopCheck                      // xv_loop_run: about to read loop->start
    | Polling                        // in epoll_wait
    | Woken                          // epoll_wait reported the eventfd
    | SizeCheck                      // eventfd read; about to test the queue size
    | Popping                        // saw a non-empty queue; about to pop
    | Running(task: Option<Task>)    // holds what the pop returned
    | FlagCheck                      // saw an empty queue; about to read thread->start
    | Breaking                       // saw start == 0; about to break the loop
    | Exited

  datatype StopPhase = Live | FlagCleared | Signalled

  datatype State = State(
    queue: seq<Task>,
    counter: nat,                    // the eventfd
    unsent: set<int>,                // producers between their push and their send
    start: bool,
    loopStart: bool,
    phase: Phase,
    stop: StopPhase,
    pushed: seq<Task>,               // history: every push, in lock order
    popped: seq<Task>,               // history: every pop
    ran: seq<Task>,                  // history: every callback run
    lastEmpty: nat)                  // history: |pushed| when the queue was last seen empty

  const INIT := State([], 0, {}, false, true, NotStarted, Live, [], [], [], 0)

  datatype Step =
    | Push(producer: int, task: Task)
    | Send(producer: int)
    | SetStart
    | Spawn
    | ClearFlag                      // xv_worker_thread_stop
    | SignalStop                     // the xv_async_send of xv_worker_thread_destroy
    | Interrupted                    // epoll_wait returns with nothing
    | Work                           // the worker's next action

  // eventfd_write(1), whose failure every caller ignores
  function Signal(counter: nat): nat {
    if counter < EVENTFD_MAX then counter + 1 else counter
  }

  // The worker is inside epoll_wait with nothing to report.
  predicate Blocked(s: State) { s.phase.Polling? && s.counter == 0 }

  predicate Spawned(s: State) { !s.phase.NotStarted? && !s.phase.Starting? }

  predicate CanWork(s: State) { Spawned(s) && !s.phase.Exited? && !Blocked(s) }

  predicate Enabled(s: State, step: Step) {
    match step
    case Push(p, _) => p !in s.unsent
    case Send(p) => p in s.unsent
    case SetStart => s.phase.NotStarted? && s.stop.Live?
    case Spawn => s.phase.Starting?
    case ClearFlag => true
    case SignalStop => !s.stop.Live?
    case Interrupted => s.phase.Polling?
    case Work => CanWork(s)
  }

  function WorkStep(s: State): State
    requires CanWork(s)
  {
    match s.phase
    case EntryCheck => s.(phase := if s.start then LoopCheck else Exited)
    case LoopCheck => s.(phase := if s.loopStart then Polling else EntryCheck)
    case Polling => s.(phase := Woken)
    case Woken => s.(counter := 0, phase := SizeCheck)
    case SizeCheck =>
      if |s.queue| > 0 then s.(phase := Popping)
      else s.(phase := FlagCheck, lastEmpty := |s.pushed|)
    case Popping =>
      if s.queue == [] then s.(phase := Running(None))
      else s.(queue := s.queue[1..], popped := s.popped + [s.queue[0]], phase := Running(Some(s.queue[0])))
    case Running(t) =>
      s.(phase := SizeCheck, ran := if t.Some? && t.value.hasCb then s.ran + [t.value] else s.ran)
    case FlagCheck => s.(phase := if s.start then LoopCheck else Breaking)
    case Breaking => s.(loopStart := false, phase := LoopCheck)
  }

  function Apply(s: State, step: Step): State
    requires Enabled(s, step)
  {
    match step
    case Push(p, t) => s.(queue := s.queue + [t], pushed := s.pushed + [t], unsent := s.unsent + {p})
    case Send(p) => s.(counter := Signal(s.counter), unsent := s.unsent - {p})
    case SetStart => s.(start := true, phase := Starting)
    case Spawn => s.(phase := EntryCheck)
    case ClearFlag => s.(start := false, stop := if s.stop.Live? then FlagCleared else s.stop)
    case SignalStop => s.(counter := Signal(s.counter), stop := Signalled)
    case Interrupted => s.(phase := LoopCheck)
    case Work => WorkStep(s)
  }

  ghost predicate Legal(s: State, steps: seq<Step>)
    decreases |steps|
  {
    steps == [] || (Enabled(s, steps[0]) && Legal(Apply(s, steps[0]), steps[1..]))
  }

  ghost function Exec(s: State, steps: seq<Step>): State
    requires Legal(s, steps)
    decreases |steps|
  {
    if steps == [] then s else Exec(Apply(s, steps[0]), steps[1..])
  }

  // What the other threads make of a script of steps: each one that they can take at its turn.
  predicate ByOthers(step: Step) { step.Push? || step.Send? || step.ClearFlag? || step.SignalStop? }

  ghost function Played(s: State, script: seq<Step>): seq<Step>
    decreases |script|
  {
    if script == [] then []
    else if ByOthers(script[0]) && Enabled(s, script[0])
    then [script[0]] + Played(Apply(s, script[0]), script[1..])
    else Played(s, script[1..])
  }

  lemma {:induction false} ExecAppend(s: State, steps: seq<Step>, step: Step)
    requires Legal(s, steps) && Enabled(Exec(s, steps), step)
    ensures Legal(s, steps + [step]) && Exec(s, steps + [step]) == Apply(Exec(s, steps), step)
    decreases |steps|
  {
    if steps == [] {
      assert Legal(Apply(s, step), []);
      assert ([step])[1..] == [];
      assert steps + [step] == [step];
    } else {
      assert (steps + [step])[1..] == steps[1..] + [step];
      ExecAppend(Apply(s, steps[0]), steps[1..], step);
    }
  }

  // Those of a sequence of tasks that have a callback to run.
  ghost function Runnable(ts: seq<Task>): seq<Task> {
    if ts == [] then []
    else
      var t := ts[|ts| - 1];
      Runnable(ts[..|ts| - 1]) + (if t.hasCb then [t] else [])
  }

  lemma {:induction false} RunnableIsAll(ts: seq<Task>)
    requires forall t :: t in ts ==> t.hasCb
    ensures Runnable(ts) == ts
    decreases |ts|
  {
    if ts != [] {
      RunnableIsAll(ts[..|ts| - 1]);
      assert ts == ts[..|ts| - 1] + [ts[|ts| - 1]];
    }
  }

  lemma RunnableAppend(ts: seq<Task>, t: Task)
    ensures Runnable(ts + [t]) == Runnable(ts) + (if t.hasCb then [t] else [])
  {
    assert (ts + [t])[..|ts|] == ts;
  }

  lemma {:induction false} RunnablePrefix(ts: seq<Task>, more: seq<Task>)
    ensures Runnable(ts) <= Runnable(ts + more)
    decreases |more|
  {
    if more == [] {
      assert ts + more == ts;
    } else {
      var last := |more| - 1;
      assert ts + more == (ts + more[..last]) + [more[last]];
      RunnableAppend(ts + more[..last], more[last]);
      RunnablePrefix(ts, more[..last]);
    }
  }

  // ------------------------------------------------------------------------------------
  // The inductive invariant
  // ------------------------------------------------------------------------------------

  // The worker has read the eventfd and not yet seen the queue empty.
  predicate Draining(s: State) { s.phase.SizeCheck? || s.phase.Popping? || s.phase.Running? }

  // The worker has seen an empty queue in this round, or left through the loop break.
  predicate AfterDrain(s: State) { s.phase.FlagCheck? || s.phase.Breaking? || !s.loopStart }

  // Every popped task but the one in hand.
  function Finished(s: State): seq<Task> {
    if s.phase.Running? && s.popped != [] then s.popped[..|s.popped| - 1] else s.popped
  }

  // Exactly once, in order: what is queued is what was pushed and not popped, and what ran
  // is what was popped and is no longer in hand.
  ghost predicate Fifo(s: State) {
    && s.pushed == s.popped + s.queue
    && s.ran == Runnable(Finished(s))
    && (s.phase.Popping? ==> s.queue != [])
    && (s.phase.Running? ==> s.phase.task.Some? && s.popped != []
                             && s.phase.task.value == s.popped[|s.popped| - 1])
  }

  predicate WakeupPending(s: State) {
    && (s.queue != [] ==> s.counter > 0 || s.unsent != {} || Draining(s))
    && (s.phase.Woken? ==> s.counter > 0)
  }

  predicate StopFlags(s: State) {
    && (!s.stop.Live? ==> !s.start)
    && (!s.loopStart ==> !s.start && (s.phase.LoopCheck? || s.phase.EntryCheck? || s.phase.Exited?))
    && (s.phase.Breaking? ==> !s.start)
    && (s.phase.Exited? ==> !s.start)
    && (s.phase.NotStarted? ==> !s.start)
    && (s.stop.Live? && !s.phase.NotStarted? ==> s.start)
    && (s.stop.Signalled? && (s.phase.LoopCheck? || s.phase.Polling?) && s.loopStart ==> s.counter > 0)
  }

  predicate Leftover(s: State) {
    && s.lastEmpty <= |s.pushed|
    && (AfterDrain(s) ==> |s.popped| == s.lastEmpty)
    && (s.loopStart && (!Spawned(s) || s.phase.EntryCheck? || s.phase.Exited?) ==> s.popped == [])
  }

  ghost predicate Inv(s: State) {
    Fifo(s) && WakeupPending(s) && StopFlags(s) && Leftover(s)
  }

  lemma PopKeepsFifo(s: State)
    requires Fifo(s) && s.phase.Popping?
    ensures Fifo(WorkStep(s))
  {
    var s' := WorkStep(s);
    assert s.queue == [s.queue[0]] + s'.queue;
    assert Finished(s') == s.popped;
  }

  lemma RunKeepsFifo(s: State)
    requires Fifo(s) && s.phase.Running?
    ensures Fifo(WorkStep(s))
  {
    var last := |s.popped| - 1;
    assert s.popped == s.popped[..last] + [s.popped[last]];
    RunnableAppend(s.popped[..last], s.popped[last]);
  }

  lemma WorkKeepsFifo(s: State)
    requires Fifo(s) && CanWork(s) && !s.phase.Popping? && !s.phase.Running?
    ensures Fifo(WorkStep(s))
  {
    var s' := WorkStep(s);
    assert s'.popped == s.popped && s'.queue == s.queue && s'.ran == s.ran;
  }

  lemma StepKeepsFifo(s: State, step: Step)
    requires Fifo(s) && Enabled(s, step)
    ensures Fifo(Apply(s, step))
  {
    if !step.Work? {
      assert Finished(Apply(s, step)) == Finished(s);
    } else if s.phase.Popping? {
      PopKeepsFifo(s);
    } else if s.phase.Running? {
      RunKeepsFifo(s);
    } else {
      WorkKeepsFifo(s);
    }
  }

  lemma StepKeepsWakeup(s: State, step: Step)
    requires WakeupPending(s) && Enabled(s, step)
    ensures WakeupPending(Apply(s, step))
  {
    if step.Push? {
      assert step.producer in Apply(s, step).unsent;
    }
  }

  lemma StepKeepsStop(s: State, step: Step)
    requires StopFlags(s) && Enabled(s, step)
    ensures StopFlags(Apply(s, step))
  {}

  lemma StepKeepsLeftover(s: State, step: Step)
    requires Leftover(s) && s.pushed == s.popped + s.queue && StopFlags(s) && Enabled(s, step)
    ensures Leftover(Apply(s, step))
  {}

  lemma StepKeepsInv(s: State, step: Step)
    requires Inv(s) && Enabled(s, step)
    ensures Inv(Apply(s, step))
  {
    StepKeepsFifo(s, step);
    StepKeepsWakeup(s, step);
    StepKeepsStop(s, step);
    StepKeepsLeftover(s, step);
  }

  lemma {:induction false} RunKeepsInvariant(s: State, steps: seq<Step>)
    requires Inv(s) && Legal(s, steps)
    ensures Inv(Exec(s, steps))
    decreases |steps|
  {
    if steps != [] {
      StepKeepsInv(s, steps[0]);
      RunKeepsInvariant(Apply(s, steps[0]), steps[1..]);
    }
  }

  // ------------------------------------------------------------------------------------
  // Safety of every interleaving
  // ------------------------------------------------------------------------------------

  // The tasks that the pushes of a run hand over, in lock order: read off the steps alone.
  ghost function PushesOf(steps: seq<Step>): seq<Task> {
    if steps == [] then []
    else (if steps[0].Push? then [steps[0].task] else []) + PushesOf(steps[1..])
  }

  lemma StepPushed(s: State, step: Step)
    requires Enabled(s, step)
    ensures Apply(s, step).pushed == s.pushed + (if step.Push? then [step.task] else [])
  {}

  lemma {:induction false} PushedExactly(s: State, steps: seq<Step>)
    requires Legal(s, steps)
    ensures Exec(s, steps).pushed == s.pushed + PushesOf(steps)
    decreases |steps|
  {
    if steps != [] {
      StepPushed(s, steps[0]);
      PushedExactly(Apply(s, steps[0]), steps[1..]);
    }
  }

  lemma PushedFromStart(steps: seq<Step>)
    requires Legal(INIT, steps)
    ensures Exec(INIT, steps).pushed == PushesOf(steps)
  {
    PushedExactly(INIT, steps);
    assert [] + PushesOf(steps) == PushesOf(steps);
  }

  // A queued task always has a wakeup on its way, even when eventfd writes fail because the
  // counter is saturated.
  lemma NoLostWakeup(steps: seq<Step>)
    requires Legal(INIT, steps)
    ensures var s := Exec(INIT, steps);
            s.queue != [] ==> s.counter > 0 || s.unsent != {} || Draining(s)
  {
    RunKeepsInvariant(INIT, steps);
  }

  // Tasks are run exactly once and in the order the lock saw their pushes; the pop that
  // follows a positive size check never comes back empty.
  lemma ExactlyOnceInOrder(steps: seq<Step>)
    requires Legal(INIT, steps)
    ensures var s := Exec(INIT, steps);
            && PushesOf(steps) == s.popped + s.queue
            && s.ran == Runnable(Finished(s))
            && s.ran <= Runnable(PushesOf(steps))
            && (s.phase.Running? ==> s.phase.task.Some?)
  {
    RunKeepsInvariant(INIT, steps);
    PushedFromStart(steps);
    RanIsPrefix(Exec(INIT, steps));
  }

  lemma RanIsPrefix(s: State)
    requires Inv(s)
    ensures s.ran <= Runnable(s.pushed)
  {
    assert s.pushed == Finished(s) + s.pushed[|Finished(s)|..];
    RunnablePrefix(Finished(s), s.pushed[|Finished(s)|..]);
  }

  // A worker that sleeps while no producer is mid-way has run everything.
  lemma BlockedMeansDone(steps: seq<Step>)
    requires Legal(INIT, steps)
    ensures var s := Exec(INIT, steps);
            Blocked(s) && s.unsent == {} ==> s.queue == [] && s.ran == Runnable(PushesOf(steps))
  {
    RunKeepsInvariant(INIT, steps);
    PushedFromStart(steps);
    if Blocked(Exec(INIT, steps)) && Exec(INIT, steps).unsent == {} {
      BlockedIsDone(Exec(INIT, steps));
    }
  }

  lemma BlockedIsDone(s: State)
    requires Inv(s) && Blocked(s) && s.unsent == {}
    ensures s.queue == [] && s.ran == Runnable(s.pushed)
  {
    assert s.popped + [] == s.popped;
  }

  // After the stop request is signalled the worker is gone, on its way out, still has to read
  // a flag that is clear, or has a wakeup waiting.
  lemma StopHandshake(steps: seq<Step>)
    requires Legal(INIT, steps)
    ensures var s := Exec(INIT, steps);
            s.stop.Signalled? ==>
              !s.start && (s.phase.Exited? || s.phase.Breaking? || !s.loopStart || s.counter > 0
                           || !(s.phase.LoopCheck? || s.phase.Polling?))
  {
    RunKeepsInvariant(INIT, steps);
  }

  // What an exited worker leaves behind: through the loop break, exactly what was pushed
  // after it last saw the queue empty; otherwise it never ran anything.
  lemma ExitAccounting(steps: seq<Step>)
    requires Legal(INIT, steps)
    ensures var s := Exec(INIT, steps);
            s.phase.Exited? ==>
              && s.ran == Runnable(s.popped)
              && PushesOf(steps) == s.popped + s.queue
              && (!s.loopStart ==> s.lastEmpty <= |PushesOf(steps)| && s.queue == PushesOf(steps)[s.lastEmpty..])
              && (s.loopStart ==> s.ran == [] && s.queue == PushesOf(steps))
  {
    RunKeepsInvariant(INIT, steps);
    PushedFromStart(steps);
    var s := Exec(INIT, steps);
    assert s.pushed[|s.popped|..] == s.queue;
  }

  // ------------------------------------------------------------------------------------
  // Progress: the worker left alone
  // ------------------------------------------------------------------------------------

  function Rank(s: State): nat {
    match s.phase
    case Running(_) => 9
    case SizeCheck => 8
    case Popping => 7
    case FlagCheck => 6
    case Breaking => 5
    case EntryCheck => if s.start then 4 else 1
    case LoopCheck => if s.loopStart then 3 else 2
    case Polling => 2
    case Woken => 1
    case _ => 0
  }

  // The state a run ends in; every reachable state is one.
  ghost function Reached(steps: seq<Step>): (s: State)
    requires Legal(INIT, steps)
    ensures Inv(s)
  {
    RunKeepsInvariant(INIT, steps);
    Exec(INIT, steps)
  }

  // An upper bound on the number of steps the worker takes before it rests.
  function Measure(s: State): nat {
    (if s.counter > 0 then 10 else 0) + 10 * |s.queue| + Rank(s)
  }

  // The worker waits in the loop for a wakeup that has not been sent.
  predicate Parked(s: State) {
    (s.phase.LoopCheck? || s.phase.Polling?) && s.loopStart && s.counter == 0
  }

  lemma MeasureDrops(s: State)
    requires CanWork(s) && WakeupPending(s) && StopFlags(s) && (s.phase.Popping? ==> s.queue != [])
    ensures Measure(WorkStep(s)) < Measure(s)
  {}

  lemma BoundKept(s: State)
    requires CanWork(s) && StopFlags(s) && WakeupPending(s)
    ensures Bound(s) <==> Bound(WorkStep(s))
    ensures SameOthers(s, WorkStep(s)) && Spawned(WorkStep(s))
  {}

  // One worker step: it makes progress, leaves the others' part of the state alone, and does
  // not change whether the worker is bound to exit.
  lemma WorkStepFacts(s: State)
    requires Inv(s) && CanWork(s)
    ensures Inv(WorkStep(s)) && Measure(WorkStep(s)) < Measure(s)
    ensures SameOthers(s, WorkStep(s)) && Spawned(WorkStep(s))
    ensures Bound(s) <==> Bound(WorkStep(s))
  {
    StepKeepsInv(s, Work);
    MeasureDrops(s);
    BoundKept(s);
  }

  predicate SameOthers(s: State, r: State) {
    r.pushed == s.pushed && r.unsent == s.unsent && r.start == s.start && r.stop == s.stop
  }

  predicate Bound(s: State) { !s.start && !Parked(s) }

  // The state in which the worker comes to rest when no one else moves.
  ghost function Settle(s: State): (r: State)
    requires Inv(s)
    decreases Measure(s)
  {
    if CanWork(s) then
      WorkStepFacts(s);
      Settle(WorkStep(s))
    else s
  }

  // Settling is a run of the machine made of boundedly many worker steps only.
  lemma {:induction false} SettleIsARun(s: State) returns (steps: seq<Step>)
    requires Inv(s)
    ensures |steps| <= Measure(s) && forall i :: 0 <= i < |steps| ==> steps[i] == Work
    ensures Legal(s, steps) && Exec(s, steps) == Settle(s)
    decreases Measure(s)
  {
    if !CanWork(s) {
      steps := [];
    } else {
      WorkStepFacts(s);
      var rest := SettleIsARun(WorkStep(s));
      steps := [Work] + rest;
      assert steps[1..] == rest;
    }
  }

  lemma {:induction false} SettleOutcome(s: State)
    requires Inv(s)
    ensures Inv(Settle(s)) && !CanWork(Settle(s)) && SameOthers(s, Settle(s))
    ensures Spawned(s) ==> Spawned(Settle(s)) && (Settle(s).phase.Exited? <==> Bound(s))
    decreases Measure(s)
  {
    if CanWork(s) {
      WorkStepFacts(s);
      SettleOutcome(WorkStep(s));
    }
  }

  // Liveness of a running worker: from every reachable state, if producers have finished
  // their sends, the worker's own steps run every task pushed so far and then sleep.
  lemma WorkerDrainsQueue(steps: seq<Step>)
    requires Legal(INIT, steps)
    requires var s := Reached(steps); Spawned(s) && s.start && s.unsent == {}
    ensures var s := Reached(steps);
            var r := Settle(s);
            Blocked(r) && r.queue == [] && r.ran == Runnable(PushesOf(steps))
  {
    var s := Reached(steps);
    PushedFromStart(steps);
    SettleOutcome(s);
    BlockedIsDone(Settle(s));
  }

  // Stopping: once the flag is clear, the worker's own steps reach the exit exactly when it
  // was not parked; after the signal that xv_worker_thread_destroy sends it never is, so the
  // join returns.
  lemma WorkerExits(steps: seq<Step>)
    requires Legal(INIT, steps)
    requires var s := Reached(steps); Spawned(s) && !s.stop.Live?
    ensures var s := Reached(steps);
            && (Settle(s).phase.Exited? <==> !Parked(s))
            && (s.stop.Signalled? ==> Settle(s).phase.Exited?)
  {
    SettleOutcome(Reached(steps));
  }

  // ------------------------------------------------------------------------------------
  // Where the protocol promises less than one might expect
  // ------------------------------------------------------------------------------------

  // Clearing the flag without a signal (xv_worker_thread_stop or xv_thread_pool_stop alone)
  // can leave the worker asleep for good.
  lemma StopAloneCanStrandWorker() returns (steps: seq<Step>)
    ensures Legal(INIT, steps)
    ensures var s := Exec(INIT, steps);
            Spawned(s) && s.stop.FlagCleared? && !CanWork(s) && !s.phase.Exited?
  {
    steps := Extend([], SetStart);
    steps := Extend(steps, Spawn);
    steps := Extend(steps, Work);
    steps := Extend(steps, Work);
    steps := Extend(steps, ClearFlag);
  }

  // A task pushed and signalled before the stop request can be left behind unrun.
  lemma TaskBeforeStopCanBeLost(a: Task, b: Task) returns (before: seq<Step>, after: seq<Step>)
    requires a != b && a.hasCb && b.hasCb
    ensures Legal(INIT, before) && Legal(INIT, before + after)
    ensures var s := Exec(INIT, before);
            s.stop.Live? && s.unsent == {} && b in s.pushed
    ensures forall i :: 0 <= i < |after| ==> after[i] == ClearFlag || after[i] == Work
    ensures var s := Exec(INIT, before + after);
            s.phase.Exited? && b !in s.ran
  {
    before := WakeWorker(a);
    before := RunOne(before, a);
    before := Extend(before, Push(1, b));
    before := Extend(before, Send(1));
    assert Exec(INIT, before) == State([b], 1, {}, true, true, FlagCheck, Live, [a, b], [a], [a], 1);
    after := [ClearFlag, Work, Work, Work, Work];
    var all := LeaveLoop(before, a, b);
    assert all == before + after;
  }

  // With the flag clear, the worker reaches the exit without looking at the queue again.
  predicate PastQueue(s: State) {
    || s.phase.Starting? || s.phase.EntryCheck? || s.phase.FlagCheck? || s.phase.Breaking? || s.phase.Exited?
    || !s.loopStart
  }

  lemma PastQueueStep(s: State, step: Step)
    requires Inv(s) && !s.stop.Live? && Enabled(s, step) && PastQueue(s)
    ensures PastQueue(Apply(s, step)) && Apply(s, step).popped == s.popped && !Apply(s, step).stop.Live?
  {}

  lemma {:induction false} PastQueueRun(s: State, more: seq<Step>)
    requires Inv(s) && !s.stop.Live? && PastQueue(s) && Legal(s, more)
    ensures Inv(Exec(s, more)) && Exec(s, more).popped == s.popped
    decreases |more|
  {
    if more != [] {
      StepKeepsInv(s, more[0]);
      PastQueueStep(s, more[0]);
      PastQueueRun(Apply(s, more[0]), more[1..]);
    }
  }

  // The tasks of `ts` were popped, or will be before the worker is past the queue.
  predicate Reaches(s: State, ts: seq<Task>) { ts <= s.popped || (!PastQueue(s) && ts <= s.pushed) }

  lemma ReachesStep(s: State, step: Step, ts: seq<Task>)
    requires Inv(s) && !s.stop.Live? && Enabled(s, step) && Reaches(s, ts)
    ensures Reaches(Apply(s, step), ts) && !Apply(s, step).stop.Live?
  {
    assert s.queue == [] ==> s.popped == s.pushed;
  }

  ghost predicate Stopped(s: State, ts: seq<Task>) { Inv(s) && !s.stop.Live? && Reaches(s, ts) }

  lemma StoppedStep(s: State, step: Step, ts: seq<Task>)
    requires Stopped(s, ts) && Enabled(s, step)
    ensures Stopped(Apply(s, step), ts)
  {
    StepKeepsInv(s, step);
    ReachesStep(s, step, ts);
  }

  lemma {:induction false} StoppedRun(s: State, more: seq<Step>, ts: seq<Task>)
    requires Stopped(s, ts) && Legal(s, more)
    ensures Stopped(Exec(s, more), ts)
    decreases |more|
  {
    if more != [] {
      StoppedStep(s, more[0], ts);
      StoppedRun(Apply(s, more[0]), more[1..], ts);
    }
  }

  // Where the worker stands when it will not look at the queue again once the flag is clear:
  // having just seen the queue empty, or on its way into its first round.
  predicate AboutToReadFlag(s: State) { s.phase.Starting? || s.phase.EntryCheck? || s.phase.FlagCheck? }

  // What stopping loses, by the state in which the flag is cleared and for every continuation
  // that ends in the exit, producers pushing on all the while: if the worker is at that moment
  // about to read the flag, nothing more is popped; otherwise all that was pushed by then is.
  // What was popped has run.
  lemma StopLosesExactly(steps: seq<Step>, more: seq<Step>)
    requires Legal(INIT, steps) && Reached(steps).stop.Live? && Legal(Apply(Reached(steps), ClearFlag), more)
    requires Exec(Apply(Reached(steps), ClearFlag), more).phase.Exited?
    ensures var s := Reached(steps);
            var r := Exec(Apply(s, ClearFlag), more);
            && (if AboutToReadFlag(s) then r.popped == s.popped else PushesOf(steps) <= r.popped)
            && PushesOf(steps) + PushesOf(more) == r.popped + r.queue && r.ran == Runnable(r.popped)
  {
    var s := Reached(steps);
    var s1 := Apply(s, ClearFlag);
    PushedFromStart(steps);
    PushedExactly(s1, more);
    StepKeepsInv(s, ClearFlag);
    if PastQueue(s1) {
      PastQueueRun(s1, more);
    } else {
      StoppedRun(s1, more, s.pushed);
    }
  }

  lemma {:induction false} NothingPushed(s: State, more: seq<Step>)
    requires Legal(s, more) && forall i :: 0 <= i < |more| ==> !more[i].Push?
    ensures Exec(s, more).pushed == s.pushed
    decreases |more|
  {
    if more != [] {
      NothingPushed(Apply(s, more[0]), more[1..]);
    }
  }

  // Without further pushes: all that is queued at the stop is lost, or nothing is.
  lemma QuietStopLosesExactly(steps: seq<Step>, more: seq<Step>)
    requires Legal(INIT, steps) && Reached(steps).stop.Live? && Legal(Apply(Reached(steps), ClearFlag), more)
    requires forall i :: 0 <= i < |more| ==> !more[i].Push?
    requires Exec(Apply(Reached(steps), ClearFlag), more).phase.Exited?
    ensures var s := Reached(steps);
            var r := Exec(Apply(s, ClearFlag), more);
            && r.queue == (if AboutToReadFlag(s) then s.queue else [])
            && PushesOf(steps) == r.popped + r.queue && r.ran == Runnable(r.popped)
  {
    StopLosesExactly(steps, more);
    PushedFromStart(steps);
    PushedExactly(Apply(Reached(steps), ClearFlag), more);
    NothingPushed(Apply(Reached(steps), ClearFlag), more);
    SamePrefix(Reached(steps), Exec(Apply(Reached(steps), ClearFlag), more));
  }

  lemma SamePrefix(s: State, r: State)
    requires s.pushed == s.popped + s.queue && s.pushed == r.pushed == r.popped + r.queue
    ensures r.popped == s.popped ==> r.queue == s.queue
    ensures s.pushed <= r.popped ==> r.queue == [] && r.popped == s.pushed
  {
    if r.popped == s.popped {
      assert r.queue == r.pushed[|r.popped|..] && s.queue == s.pushed[|s.popped|..];
    }
  }

  // xv_worker_thread_destroy lets the worker come to such an end.
  lemma StopOutcome(steps: seq<Step>)
    requires Legal(INIT, steps) && Spawned(Reached(steps)) && Reached(steps).stop.Live?
    ensures var s := Reached(steps);
            var t := Apply(Apply(s, ClearFlag), SignalStop);
            && Inv(t) && Settle(t).phase.Exited?
            && Settle(t).queue == (if AboutToReadFlag(s) then s.queue else [])
            && (s.queue == [] || !AboutToReadFlag(s) ==> Settle(t).ran == Runnable(PushesOf(steps)))
  {
    var s := Reached(steps);
    var s1 := Apply(s, ClearFlag);
    var t := Apply(s1, SignalStop);
    StepKeepsInv(s, ClearFlag);
    StepKeepsInv(s1, SignalStop);
    SettleOutcome(t);
    var works := SettleIsARun(t);
    var more := [SignalStop] + works;
    assert more[1..] == works;
    QuietStopLosesExactly(steps, more);
    var r := Settle(t);
    if r.queue == [] {
      assert r.popped + [] == r.popped;
    }
  }

  lemma WakeWorker(a: Task) returns (steps: seq<Step>)
    ensures Legal(INIT, steps)
    ensures Exec(INIT, steps) == State([a], 1, {}, true, true, Woken, Live, [a], [], [], 0)
  {
    steps := Extend([], SetStart);
    steps := Extend(steps, Spawn);
    steps := Extend(steps, Push(1, a));
    steps := Extend(steps, Send(1));
    steps := Extend(steps, Work);
    steps := Extend(steps, Work);
    steps := Extend(steps, Work);
  }

  lemma RunOne(steps: seq<Step>, a: Task) returns (more: seq<Step>)
    requires a.hasCb && Legal(INIT, steps)
    requires Exec(INIT, steps) == State([a], 1, {}, true, true, Woken, Live, [a], [], [], 0)
    ensures Legal(INIT, more)
    ensures Exec(INIT, more) == State([], 0, {}, true, true, FlagCheck, Live, [a], [a], [a], 1)
  {
    more := Extend(steps, Work);
    more := Extend(more, Work);
    more := Extend(more, Work);
    more := Extend(more, Work);
    more := Extend(more, Work);
  }

  lemma LeaveLoop(steps: seq<Step>, a: Task, b: Task) returns (more: seq<Step>)
    requires Legal(INIT, steps)
    requires Exec(INIT, steps) == State([b], 1, {}, true, true, FlagCheck, Live, [a, b], [a], [a], 1)
    ensures Legal(INIT, more) && more == steps + [ClearFlag, Work, Work, Work, Work]
    ensures Exec(INIT, more).phase.Exited? && Exec(INIT, more).ran == [a]
  {
    more := Extend(steps, ClearFlag);
    more := Extend(more, Work);
    more := Extend(more, Work);
    more := Extend(more, Work);
    more := Extend(more, Work);
  }

  lemma Extend(steps: seq<Step>, step: Step) returns (more: seq<Step>)
    requires Legal(INIT, steps) && Enabled(Exec(INIT, steps), step)
    ensures more == steps + [step]
    ensures Legal(INIT, more) && Exec(INIT, more) == Apply(Exec(INIT, steps), step)
  {
    ExecAppend(INIT, steps, step);
    more := steps + [step];
  }
}
