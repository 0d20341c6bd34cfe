/** Whole runs of a service: what every reachable state satisfies, and that the threads, left
    alone, finish their work. */
module FlowProgress {
  import opened ServiceFlow
  import opened FlowWakeups
  import opened FlowOrder
  import opened FlowOwnership
  import opened FlowLifetime
  import opened FlowHistory

  // What holds in every reachable state.
  ghost predicate Inv(s: Flow) {
    && Placed(s) && Awake(s) && Places(s)
    && (forall c, request :: Flows(s, c, request))
    && (forall i :: 0 <= i < |s.io| ==> Owned(s, i))
    && (forall c :: Counted(s, c))
  }

  lemma InitInv(n: nat, w: nat)
    requires n > 0
    ensures Inv(Init(n, w))
  {}

  lemma StepInv(s: Flow, step: Step)
    requires Inv(s) && Ready(s, step)
    ensures Inv(Apply(s, step)) && Grown(s, Apply(s, step))
  {
    StepGrown(s, step);
    StepPlaced(s, step);
    StepAwake(s, step);
    StepPlaces(s, step);
    forall c, request ensures Flows(Apply(s, step), c, request) {
      StepFlows(s, step, c, request);
    }
    forall i | 0 <= i < |s.io| ensures Owned(Apply(s, step), i) {
      StepOwned(s, step, i);
    }
    forall c ensures Counted(Apply(s, step), c) {
      StepCounted(s, step, c);
    }
  }

  lemma StepFate(s: Flow, step: Step)
    requires Inv(s) && Enabled(s, step)
    ensures Doomed(Apply(s, step)) <==> Doomed(s) || ClosesEarly(s, step)
  {
    assert forall c :: Books(s, c);
    StepDoomed(s, step);
  }

  lemma {:induction false} RunInv(s: Flow, steps: seq<Step>)
    requires Inv(s) && Legal(s, steps)
    ensures Inv(Exec(s, steps)) && |Exec(s, steps).io| == |s.io| && |Exec(s, steps).workers| == |s.workers|
    ensures Doomed(Exec(s, steps)) <==> Doomed(s) || ClosedEarly(s, steps)
    decreases |steps|
  {
    if steps != [] {
      StepInv(s, steps[0]);
      StepFate(s, steps[0]);
      RunInv(Apply(s, steps[0]), steps[1..]);
    }
  }

  lemma Reachable(n: nat, w: nat, steps: seq<Step>)
    requires n > 0 && Legal(Init(n, w), steps)
    ensures var s := Exec(Init(n, w), steps);
            && Inv(s) && |s.io| == n && |s.workers| == w && Kept(s) == BookOf(steps)
            && (Doomed(s) <==> ClosedEarly(Init(n, w), steps))
  {
    HistoryIsSteps(n, w, steps);
    InitInv(n, w);
    RunInv(Init(n, w), steps);
  }

  // ------------------------------------------------------------------------------------
  // Safety of every run
  // ------------------------------------------------------------------------------------

  // Requests of one connection are finished in the order they were decoded, messages of the user
  // to it in the order they were pushed, and each one not finished is in the pipeline of its
  // connection's thread.
  lemma RequestsStayInOrder(n: nat, w: nat, steps: seq<Step>, c: Client, request: bool)
    requires n > 0 && Legal(Init(n, w), steps)
    ensures var s := Exec(Init(n, w), steps);
            var all := Of(BookOf(steps).entered, c, request);
            && |s.io| == n
            && all == Of(s.finished, c, request) + Of(Pipeline(s, Home(c, n)), c, request)
            && Of(s.finished, c, request) <= all
  {
    Reachable(n, w, steps);
    assert Flows(Exec(Init(n, w), steps), c, request);
  }

  lemma {:induction false} OfCount(ms: seq<Msg>, m: Msg)
    ensures multiset(Of(ms, m.conn, m.request))[m] == multiset(ms)[m]
    decreases |ms|
  {
    if ms != [] {
      var rest, x := ms[..|ms| - 1], ms[|ms| - 1];
      var tail := if x.conn == m.conn && x.request == m.request then [x] else [];
      OfCount(rest, m);
      assert ms == rest + [x];
      assert Of(ms, m.conn, m.request) == Of(rest, m.conn, m.request) + tail;
      assert multiset(tail)[m] == multiset([x])[m];
    }
  }

  // Every message ever created is destroyed once, is in one place of its home's pipeline, or is in
  // its sender's hand: only one of these, and never twice.
  lemma ExactlyOnePlace(n: nat, w: nat, steps: seq<Step>, m: Msg)
    requires n > 0 && Legal(Init(n, w), steps)
    requires m in BookOf(steps).created
    ensures var s := Exec(Init(n, w), steps);
            && |s.io| == n
            && multiset(s.finished)[m] + multiset(Pipeline(s, Home(m.conn, n)))[m] 
               == if m in BookOf(steps).taken then 0 else 1
  {
    var s := Exec(Init(n, w), steps);
    Reachable(n, w, steps);
    RequestsStayInOrder(n, w, steps, m.conn, m.request);
    OfCount(s.entered, m);
    OfCount(s.finished, m);
    OfCount(Pipeline(s, Home(m.conn, n)), m);
    assert m in s.entered <==> multiset(s.entered)[m] > 0;
  }

  // The reference count of a connection is one, plus the messages outstanding for it, which are in
  // its thread's pipeline or in a sender's hand, plus the holds of the user.
  lemma RefsCountMessages(n: nat, w: nat, steps: seq<Step>, c: Client)
    requires n > 0 && Legal(Init(n, w), steps) && c in Exec(Init(n, w), steps).refs
    ensures var s := Exec(Init(n, w), steps);
            && |s.io| == n
            && var p := Pipeline(s, Home(c, n));
               s.refs[c] == 1 + |Of(p, c, true)| + |Of(p, c, false)|
                              + CountFor(BookOf(steps).taken, c) + BookOf(steps).holds[c]
  {
    var s := Exec(Init(n, w), steps);
    Reachable(n, w, steps);
    assert Flows(s, c, true) && Flows(s, c, false) && Counted(s, c);
    OutstandingIsInPipeline(s, c);
  }

  // Each accepted connection goes, in order of acceptance, to thread fd % (n - 1) + 1 and to no
  // other, the leader keeping none; a lone io thread keeps all.
  lemma ConnectionOwnership(n: nat, w: nat, steps: seq<Step>, i: nat)
    requires i < n && Legal(Init(n, w), steps)
    ensures var s := Exec(Init(n, w), steps);
            && |s.io| == n
            && ForThread(BookOf(steps).accepted, i, n)
               == s.io[i].adopted + HeldAdopting(s.io[i].phase) + s.io[i].connQ
                  + ForThread(HeldAccepted(s.io[0].phase), i, n)
            && (forall c :: c in s.io[i].adopted ==> c in s.ioThread && s.ioThread[c] == i)
            && (forall c :: c in s.io[i].adopted ==> if n == 1 then i == 0 else i == c.fd % (n - 1) + 1)
            && (n > 1 ==> s.io[0].adopted == [] && s.io[0].connQ == [])
  {
    var s := Exec(Init(n, w), steps);
    Reachable(n, w, steps);
    assert Owned(s, i) && IoOk(s, i);
    ByHomeIsPromised(s.accepted, i, n);
    ByHomeIsPromised(HeldAccepted(s.io[0].phase), i, n);
    forall c | c in s.io[i].adopted ensures AtThread(c, i, n) {
      HomeIsPromised(c, i, n);
    }
    if n > 1 {
      LeaderHasNone(s);
    }
  }

  // Two connections have the same io thread exactly when their descriptors agree modulo the
  // number of followers.
  lemma SameThreadExactly(n: nat, w: nat, steps: seq<Step>, c: Client, d: Client)
    requires n > 1 && Legal(Init(n, w), steps)
    requires c in Exec(Init(n, w), steps).ioThread && d in Exec(Init(n, w), steps).ioThread
    ensures var s := Exec(Init(n, w), steps);
            s.ioThread[c] == s.ioThread[d] <==> c.fd % (n - 1) == d.fd % (n - 1)
  {
    var s := Exec(Init(n, w), steps);
    Reachable(n, w, steps);
    HomeIsPromised(c, s.ioThread[c], n);
    HomeIsPromised(d, s.ioThread[d], n);
  }

  // No lost wakeup: an io thread that sleeps in epoll_wait with a counter at zero, with nobody
  // between a push and its signal, has nothing in the queue of that counter.
  lemma AsleepMeansEmpty(n: nat, w: nat, steps: seq<Step>, i: nat)
    requires i < n && Legal(Init(n, w), steps)
    ensures var s := Exec(Init(n, w), steps);
            && |s.io| == n
            && (s.io[i].phase.Polling? && s.io[i].connEv == 0 && !At(s, 0, Handing(i)) ==> s.io[i].connQ == [])
            && (s.io[i].phase.Polling? && s.io[i].msgEv == 0 && s.io[i].users == {} && !ReturningTo(s, i) ==>
                  s.io[i].msgQ == [])
  {
    Reachable(n, w, steps);
    assert ConnWake(Exec(Init(n, w), steps), i) && MsgWake(Exec(Init(n, w), steps), i);
  }

  // ... and so for a worker of the pool.
  lemma WorkerAsleepMeansEmpty(n: nat, w: nat, steps: seq<Step>, k: nat)
    requires n > 0 && k < w && Legal(Init(n, w), steps)
    ensures var s := Exec(Init(n, w), steps);
            && |s.workers| == w
            && (s.workers[k].phase.Asleep? && s.workers[k].ev == 0 && !TaskingTo(s, k) ==> s.workers[k].queue == [])
  {
    Reachable(n, w, steps);
    assert TaskWake(Exec(Init(n, w), steps), k);
  }

  lemma HeldIsInPool(s: Flow, k: nat)
    requires Placed(s) && k < |s.workers| && s.workers[k].phase.Holding?
    ensures k == TheWorker(s) && HasHome(s, s.workers[k].phase.msg.conn)
    ensures s.ioThread[s.workers[k].phase.msg.conn] == Home(s.workers[k].phase.msg.conn, |s.io|)
  {
    assert k == TheWorker(s);
    assert s.workers[k].phase.msg in InPool(s);
  }

  // Only worker 1 % w is ever used.  The message it holds comes from its connection's home
  // thread, and going back there is a fault exactly when the connection was freed meanwhile;
  // that takes an early close.
  lemma ReturnsHome(n: nat, w: nat, steps: seq<Step>, k: nat)
    requires n > 0 && k < w && Legal(Init(n, w), steps)
    ensures var s := Exec(Init(n, w), steps);
            && |s.workers| == w && (k != 1 % w ==> s.workers[k] == FRESH_WORKER)
            && (s.workers[k].phase.Holding? ==>
                  var c := s.workers[k].phase.msg.conn;
                  && Ready(s, Return(k)) && AtThread(c, s.ioThread[c], n)
                  && (Enabled(s, Return(k)) <==> c !in s.freed)
                  && (!ClosedEarly(Init(n, w), steps) ==> Enabled(s, Return(k))))
  {
    var s := Exec(Init(n, w), steps);
    Reachable(n, w, steps);
    if s.workers[k].phase.Holding? {
      HeldIsInPool(s, k);
      HomeIsPromised(s.workers[k].phase.msg.conn, s.ioThread[s.workers[k].phase.msg.conn], n);
      if s.workers[k].phase.msg.conn in s.freed {
        assert forall c :: Books(s, c);
        FaultIsDoomed(s, Return(k));
      }
    }
  }

  lemma {:induction false} RunLedger(s: Flow, steps: seq<Step>, c: Client)
    requires Inv(s) && Legal(s, steps)
    ensures var t := Exec(s, steps);
            && (c in t.closed <==> c in s.closed || ClosedBy(s, steps, c))
            && (c in t.freed <==> c in s.freed || FreedBy(s, steps, c))
            && (c in t.reclaimed <==> c in s.reclaimed || ReclaimedBy(s, steps, c))
    decreases |steps|
  {
    if steps != [] {
      assert forall a :: Books(s, a);
      StepLedger(s, steps[0], c);
      StepInv(s, steps[0]);
      RunLedger(Apply(s, steps[0]), steps[1..], c);
    }
  }

  // Over every run: closed by a callback or a reply that cannot be written; reclaimed by the close
  // of a callback that finds no message out and no hold, and by nothing else; freed by that, or by
  // a message that came back to it closed.
  lemma EndsExactly(n: nat, w: nat, steps: seq<Step>, c: Client)
    requires n > 0 && Legal(Init(n, w), steps)
    ensures var s := Exec(Init(n, w), steps);
            && (c in s.closed <==> ClosedBy(Init(n, w), steps, c))
            && (c in s.freed <==> FreedBy(Init(n, w), steps, c))
            && (c in s.reclaimed <==> ReclaimedBy(Init(n, w), steps, c))
  {
    InitInv(n, w);
    RunLedger(Init(n, w), steps, c);
  }

  // ------------------------------------------------------------------------------------
  // The threads' own work ends
  // ------------------------------------------------------------------------------------

  // Steps no client, failure or new call of the user is needed for.
  predicate Internal(step: Step) {
    match step
    case Accept(_) => false
    case Decode(_, _, _) => false
    case Close(_, _) => false
    case UserTest(_) => false
    case UserPushNull(_) => false
    case Hold(_) => false
    case Drop(_) => false
    case Finish(_, fails) => !fails
    case _ => true
  }

  function IoRank(p: IoPhase): nat {
    match p
    case Polling => 0
    case Accepted(_) => 8
    case Handing(_) => 4
    case Decoded(_) => 15
    case Tasking(_) => 4
    case Adopting(_) => 3
    case Returned(_) => 3
    case ConnCheck => 2
    case MsgCheck => 2
    case ConnPop => 1
    case MsgPop => 1
  }

  function Pending(ev: nat): nat { if ev > 0 then 3 else 0 }

  function IoWeight(t: IoThread): nat {
    IoRank(t.phase) + 3 * |t.connQ| + Pending(t.connEv) + 3 * |t.msgQ| + Pending(t.msgEv) + 4 * |t.users|
  }

  function WorkerRank(p: WorkerPhase): nat {
    match p
    case Asleep => 0
    case Popping => 1
    case Checking => 2
    case Returning(_) => 6
    case Holding(_) => 10
  }

  function WorkerWeight(t: Worker): nat { WorkerRank(t.phase) + 10 * |t.queue| + Pending(t.ev) }

  function IoTotal(io: seq<IoThread>): nat { if io == [] then 0 else IoWeight(io[0]) + IoTotal(io[1..]) }

  function WorkerTotal(ws: seq<Worker>): nat { if ws == [] then 0 else WorkerWeight(ws[0]) + WorkerTotal(ws[1..]) }

  // How many more steps the threads can take by themselves.
  function Measure(s: Flow): nat {
    IoTotal(s.io) + WorkerTotal(s.workers) + 9 * |s.testing| + 8 * |s.taken|
  }

  lemma {:induction false} IoTotalUpdate(io: seq<IoThread>, i: nat, t: IoThread)
    requires i < |io|
    ensures IoTotal(io[i := t]) == IoTotal(io) - IoWeight(io[i]) + IoWeight(t)
    decreases |io|
  {
    if i == 0 {
      assert io[0 := t][1..] == io[1..];
    } else {
      assert io[i := t][1..] == io[1..][i - 1 := t];
      IoTotalUpdate(io[1..], i - 1, t);
    }
  }

  lemma {:induction false} WorkerTotalUpdate(ws: seq<Worker>, w: nat, t: Worker)
    requires w < |ws|
    ensures WorkerTotal(ws[w := t]) == WorkerTotal(ws) - WorkerWeight(ws[w]) + WorkerWeight(t)
    decreases |ws|
  {
    if w == 0 {
      assert ws[0 := t][1..] == ws[1..];
    } else {
      assert ws[w := t][1..] == ws[1..][w - 1 := t];
      WorkerTotalUpdate(ws[1..], w - 1, t);
    }
  }

  lemma SetIoMeasure(s: Flow, i: nat, t: IoThread)
    requires i < |s.io|
    ensures Measure(SetIo(s, i, t)) == Measure(s) - IoWeight(s.io[i]) + IoWeight(t)
  {
    IoTotalUpdate(s.io, i, t);
  }

  lemma SetWorkerMeasure(s: Flow, w: nat, t: Worker)
    requires w < |s.workers|
    ensures Measure(SetWorker(s, w, t)) == Measure(s) - WorkerWeight(s.workers[w]) + WorkerWeight(t)
  {
    WorkerTotalUpdate(s.workers, w, t);
  }

  lemma HandMeasure(s: Flow)
    requires Ready(s, Hand)
    ensures Measure(Apply(s, Hand)) < Measure(s)
  {
    var c := s.io[0].phase.conn;
    if |s.io| == 1 {
      SetIoMeasure(s, 0, Apply(s, Hand).io[0]);
    } else {
      var i := Home(c, |s.io|);
      var s1 := SetPhase(s, 0, Handing(i));
      SetIoMeasure(s, 0, s1.io[0]);
      SetIoMeasure(s1, i, Apply(s, Hand).io[i]);
    }
  }

  lemma HandSignalMeasure(s: Flow)
    requires Ready(s, HandSignal)
    ensures Measure(Apply(s, HandSignal)) < Measure(s)
  {
    var i := s.io[0].phase.to;
    var s1 := SetPhase(s, 0, Polling);
    SetIoMeasure(s, 0, s1.io[0]);
    SetIoMeasure(s1, i, Apply(s, HandSignal).io[i]);
  }

  predicate OneThread(step: Step) {
    LoopStep(step) || step.PopConn? || step.Adopt? || step.PopMsg? || step.Finish? || step.UserSignal?
  }

  lemma UserSignalWeight(s: Flow, m: Msg, i: nat)
    requires Ready(s, UserSignal(m, i))
    ensures IoWeight(Apply(s, UserSignal(m, i)).io[i]) < IoWeight(s.io[i])
  {
    assert |s.io[i].users - {m}| == |s.io[i].users| - 1;
  }

  lemma SenderMeasure(s: Flow, step: Step)
    requires Ready(s, step) && (step.UserTake? || step.UserPush?)
    ensures Measure(Apply(s, step)) < Measure(s)
  {
    var m := step.m;
    if step.UserTake? {
      assert |s.testing - {m}| == |s.testing| - 1;
    } else {
      var i, s' := s.ioThread[m.conn], Apply(s, step);
      assert |s.taken - {m}| == |s.taken| - 1;
      assert s'.io == s.io[i := s'.io[i]];
      IoTotalUpdate(s.io, i, s'.io[i]);
    }
  }

  lemma OneThreadWeight(s: Flow, step: Step)
    requires Ready(s, step) && OneThread(step) && Internal(step)
    ensures Apply(s, step).io == s.io[step.i := Apply(s, step).io[step.i]] && Apply(s, step).workers == s.workers
    ensures Apply(s, step).testing == s.testing && Apply(s, step).taken == s.taken
    ensures IoWeight(Apply(s, step).io[step.i]) < IoWeight(s.io[step.i])
  {
    if step.UserSignal? {
      UserSignalWeight(s, step.m, step.i);
    }
  }

  lemma OneThreadMeasure(s: Flow, step: Step)
    requires Ready(s, step) && OneThread(step) && Internal(step)
    ensures Measure(Apply(s, step)) < Measure(s)
  {
    OneThreadWeight(s, step);
    IoTotalUpdate(s.io, step.i, Apply(s, step).io[step.i]);
  }

  // One io thread and one worker change.
  lemma PairMeasure(s: Flow, s': Flow, i: nat, w: nat)
    requires i < |s.io| && w < |s.workers|
    requires |s'.io| == |s.io| && s'.io == s.io[i := s'.io[i]]
    requires |s'.workers| == |s.workers| && s'.workers == s.workers[w := s'.workers[w]]
    requires s'.testing == s.testing && s'.taken == s.taken
    requires IoWeight(s'.io[i]) + WorkerWeight(s'.workers[w]) < IoWeight(s.io[i]) + WorkerWeight(s.workers[w])
    ensures Measure(s') < Measure(s)
  {
    IoTotalUpdate(s.io, i, s'.io[i]);
    WorkerTotalUpdate(s.workers, w, s'.workers[w]);
  }

  lemma PushTaskMeasure(s: Flow, i: nat, address: nat)
    requires Ready(s, PushTask(i, address))
    ensures Measure(Apply(s, PushTask(i, address))) < Measure(s)
  {
    PairMeasure(s, Apply(s, PushTask(i, address)), i, WorkerOf(address, |s.workers|));
  }

  lemma TaskSignalMeasure(s: Flow, i: nat)
    requires Ready(s, TaskSignal(i))
    ensures Measure(Apply(s, TaskSignal(i))) < Measure(s)
  {
    PairMeasure(s, Apply(s, TaskSignal(i)), i, s.io[i].phase.worker);
  }

  lemma WorkerMeasure(s: Flow, step: Step)
    requires Ready(s, step) && (step.WakeWorker? || step.CheckTasks? || step.PopTask?)
    ensures Measure(Apply(s, step)) < Measure(s)
  {
    SetWorkerMeasure(s, step.w, Apply(s, step).workers[step.w]);
  }

  lemma ReturnMeasure(s: Flow, w: nat)
    requires Ready(s, Return(w))
    ensures Measure(Apply(s, Return(w))) < Measure(s)
  {
    PairMeasure(s, Apply(s, Return(w)), s.ioThread[s.workers[w].phase.msg.conn], w);
  }

  lemma ReturnSignalMeasure(s: Flow, w: nat)
    requires Ready(s, ReturnSignal(w))
    ensures Measure(Apply(s, ReturnSignal(w))) < Measure(s)
  {
    PairMeasure(s, Apply(s, ReturnSignal(w)), s.workers[w].phase.to, w);
  }

  lemma StepMeasure(s: Flow, step: Step)
    requires Ready(s, step) && Internal(step)
    ensures Measure(Apply(s, step)) < Measure(s)
  {
    match step
    case Hand => HandMeasure(s);
    case HandSignal => HandSignalMeasure(s);
    case PushTask(i, address) => PushTaskMeasure(s, i, address);
    case TaskSignal(i) => TaskSignalMeasure(s, i);
    case Return(w) => ReturnMeasure(s, w);
    case ReturnSignal(w) => ReturnSignalMeasure(s, w);
    case WakeWorker(_) => WorkerMeasure(s, step);
    case CheckTasks(_) => WorkerMeasure(s, step);
    case PopTask(_) => WorkerMeasure(s, step);
    case UserTake(_) => SenderMeasure(s, step);
    case UserPush(_) => SenderMeasure(s, step);
    case _ => OneThreadMeasure(s, step);
  }

  ghost predicate InternalRun(s: Flow, steps: seq<Step>) {
    Legal(s, steps) && forall k :: 0 <= k < |steps| ==> Internal(steps[k])
  }

  // Left to themselves the threads come to rest, whatever the interleaving, and close nothing.
  lemma {:induction false} InternalRunsEnd(s: Flow, more: seq<Step>)
    requires InternalRun(s, more)
    ensures |more| + Measure(Exec(s, more)) <= Measure(s) && !ClosedEarly(s, more)
    decreases |more|
  {
    if more != [] {
      StepMeasure(s, more[0]);
      InternalRunsEnd(Apply(s, more[0]), more[1..]);
    }
  }

  ghost predicate AtRest(s: Flow) { forall step :: Internal(step) ==> !Enabled(s, step) }

  lemma RestIsReached(s: Flow) returns (more: seq<Step>)
    ensures InternalRun(s, more) && AtRest(Exec(s, more))
    decreases Measure(s)
  {
    if step :| Internal(step) && Enabled(s, step) {
      StepMeasure(s, step);
      var rest := RestIsReached(Apply(s, step));
      more := [step] + rest;
      assert more[1..] == rest;
    } else {
      more := [];
    }
  }

  // ------------------------------------------------------------------------------------
  // What is true at rest
  // ------------------------------------------------------------------------------------

  // A thread of the service or a sender is about to use a freed connection.
  ghost predicate FreedNext(s: Flow) {
    exists step :: Ready(s, step) && Faults(s, step) && !step.Drop? && !step.UserPushNull?
  }

  // A sender is about to use an io thread that is not set.
  ghost predicate NullNext(s: Flow) { exists m :: Ready(s, UserPushNull(m)) }

  lemma RestNotReady(s: Flow, step: Step)
    requires AtRest(s) && !FreedNext(s) && Internal(step)
    ensures !Ready(s, step)
  {
    assert !Enabled(s, step);
  }

  lemma RestingWorker(s: Flow, k: nat)
    requires Placed(s) && Awake(s) && AtRest(s) && !FreedNext(s) && k < |s.workers|
    ensures s.workers[k].phase.Asleep? && s.workers[k].ev == 0
  {
    assert TaskWake(s, k);
    RestNotReady(s, WakeWorker(k));
    RestNotReady(s, CheckTasks(k));
    RestNotReady(s, PopTask(k));
    RestNotReady(s, Return(k));
    RestNotReady(s, ReturnSignal(k));
    if s.workers[k].phase.Holding? {
      HeldIsInPool(s, k);
    }
  }

  lemma NotServingConns(s: Flow, i: nat)
    requires Placed(s) && Awake(s) && AtRest(s) && !FreedNext(s) && i < |s.io|
    ensures !s.io[i].phase.Accepted? && !s.io[i].phase.Handing? && !s.io[i].phase.Adopting?
    ensures !s.io[i].phase.ConnCheck? && !s.io[i].phase.ConnPop?
  {
    assert IoOk(s, i) && ConnWake(s, i);
    RestNotReady(s, Hand);
    RestNotReady(s, HandSignal);
    RestNotReady(s, CheckConns(i));
    RestNotReady(s, PopConn(i));
    RestNotReady(s, Adopt(i));
  }

  lemma NotServingMsgs(s: Flow, i: nat)
    requires Placed(s) && Awake(s) && AtRest(s) && !FreedNext(s) && i < |s.io|
    ensures !s.io[i].phase.MsgCheck? && !s.io[i].phase.MsgPop? && !s.io[i].phase.Returned?
  {
    assert IoOk(s, i) && MsgWake(s, i);
    RestNotReady(s, CheckMsgs(i));
    RestNotReady(s, PopMsg(i));
    RestNotReady(s, Finish(i, false));
  }

  lemma RestingPhase(s: Flow, i: nat)
    requires Placed(s) && Awake(s) && AtRest(s) && !FreedNext(s) && i < |s.io|
    ensures s.io[i].phase.Polling?
  {
    NotServingConns(s, i);
    NotServingMsgs(s, i);
    assert IoOk(s, i);
    RestNotReady(s, PushTask(i, 17));
    RestNotReady(s, TaskSignal(i));
  }

  lemma RestingSignals(s: Flow, i: nat)
    requires AtRest(s) && !FreedNext(s) && i < |s.io| && s.io[i].phase.Polling?
    ensures s.io[i].connEv == 0 && s.io[i].msgEv == 0 && s.io[i].users == {}
  {
    RestNotReady(s, WakeConns(i));
    RestNotReady(s, WakeMsgs(i));
    forall m ensures m !in s.io[i].users {
      RestNotReady(s, UserSignal(m, i));
    }
  }

  // All connections have been adopted, so all sends have somewhere to go.
  lemma RestingAdopted(s: Flow, c: Client)
    requires Inv(s) && AtRest(s) && !FreedNext(s) && c in s.refs
    ensures HasHome(s, c)
  {
    var i := Home(c, |s.io|);
    RestingThread(s, i);
    RestingThread(s, 0);
    assert Owned(s, i) && IoOk(s, i);
    ByHomeHas(s.accepted, c, |s.io|);
    assert c in s.io[i].adopted;
  }

  lemma RestingSenders(s: Flow)
    requires Inv(s) && AtRest(s) && !FreedNext(s)
    ensures s.testing == {} && s.taken == {}
  {
    forall m ensures m !in s.testing && m !in s.taken {
      RestNotReady(s, UserTake(m));
      RestNotReady(s, UserPush(m));
      if m.conn in s.refs {
        RestingAdopted(s, m.conn);
      }
    }
  }

  lemma RestingThread(s: Flow, i: nat)
    requires Placed(s) && Awake(s) && AtRest(s) && !FreedNext(s) && i < |s.io|
    ensures s.io[i].phase.Polling? && s.io[i].connQ == [] && s.io[i].msgQ == []
  {
    RestingPhase(s, i);
    RestingPhase(s, 0);
    RestingSignals(s, i);
    forall k | 0 <= k < |s.workers| ensures s.workers[k].phase.Asleep? {
      RestingWorker(s, k);
    }
    assert ConnWake(s, i) && MsgWake(s, i);
  }

  lemma RestingPool(s: Flow)
    requires Placed(s) && Awake(s) && AtRest(s) && !FreedNext(s)
    ensures InPool(s) == []
  {
    forall i | 0 <= i < |s.io| ensures s.io[i].phase.Polling? {
      RestingPhase(s, i);
    }
    if s.workers != [] {
      RestingWorker(s, TheWorker(s));
      assert TaskWake(s, TheWorker(s));
    }
  }

  lemma RestingPipeline(s: Flow, i: nat)
    requires Placed(s) && Awake(s) && AtRest(s) && !FreedNext(s) && i < |s.io|
    ensures Pipeline(s, i) == []
  {
    RestingPool(s);
    RestingThread(s, i);
  }

  // All work done: nothing in flight, every message destroyed, every connection where it belongs
  // and referred to by nobody but holds of the user.
  ghost predicate Done(s: Flow) {
    && s.io != [] && s.testing == {} && s.taken == {}
    && (forall c, request :: Of(s.finished, c, request) == Of(s.entered, c, request))
    && (forall m :: m in s.created <==> m in s.entered)
    && (forall i :: 0 <= i < |s.io| ==> s.io[i].adopted == ByHome(s.accepted, i, |s.io|))
    && (forall c :: c in s.refs ==> s.refs[c] == 1 + s.holds[c])
  }

  lemma RestIsDone(s: Flow)
    requires Inv(s) && AtRest(s) && !FreedNext(s)
    ensures Done(s)
  {
    RestingSenders(s);
    forall c, request ensures Of(s.finished, c, request) == Of(s.entered, c, request) {
      assert Flows(s, c, request);
      RestingPipeline(s, Home(c, |s.io|));
    }
    forall i | 0 <= i < |s.io| ensures s.io[i].adopted == ByHome(s.accepted, i, |s.io|) {
      assert Owned(s, i);
      RestingThread(s, i);
      RestingThread(s, 0);
    }
    forall c | c in s.refs ensures s.refs[c] == 1 + s.holds[c] {
      assert Counted(s, c);
      assert CountFor(s.taken, c) == 0;
    }
  }

  lemma NothingLeft(s: Flow, c: Client)
    requires Done(s) && c in s.refs
    ensures Left(s, c) == 0
  {
    assert CountFor(s.testing, c) == 0;
  }

  lemma DoneIsNotDoomed(s: Flow)
    requires Done(s)
    ensures !Doomed(s)
  {
    forall c ensures !Fatal(s, c) {
      if c in s.refs {
        NothingLeft(s, c);
      }
    }
  }

  // ------------------------------------------------------------------------------------
  // Main results
  // ------------------------------------------------------------------------------------

  ghost predicate CanUseFreed(s: Flow) {
    exists more :: InternalRun(s, more) && FreedNext(Exec(s, more))
  }

  lemma FateKept(s: Flow, more: seq<Step>)
    requires Inv(s) && InternalRun(s, more)
    ensures Inv(Exec(s, more)) && (Doomed(Exec(s, more)) <==> Doomed(s))
  {
    RunInv(s, more);
    InternalRunsEnd(s, more);
  }

  lemma FreedNextIsDoomed(s: Flow)
    requires Inv(s) && FreedNext(s)
    ensures Doomed(s)
  {
    assert forall c :: Books(s, c);
    var step :| Ready(s, step) && Faults(s, step) && !step.Drop? && !step.UserPushNull?;
    FaultIsDoomed(s, step);
  }

  lemma DoomedFaults(s: Flow)
    requires Inv(s) && Doomed(s)
    ensures CanUseFreed(s)
  {
    var more := RestIsReached(s);
    FateKept(s, more);
    var t := Exec(s, more);
    if !FreedNext(t) {
      RestIsDone(t);
      DoneIsNotDoomed(t);
      assert false;
    }
  }

  // A thread of the service or a sender comes to use a freed connection, without further client,
  // call or failure, if and only if some connection was closed early: with two or more messages
  // outstanding and senders past their status test left behind, or with one such sender where the
  // close frees the connection at once.
  lemma FaultsExactly(n: nat, w: nat, steps: seq<Step>)
    requires n > 0 && Legal(Init(n, w), steps)
    ensures CanUseFreed(Exec(Init(n, w), steps)) <==> ClosedEarly(Init(n, w), steps)
  {
    var s := Exec(Init(n, w), steps);
    Reachable(n, w, steps);
    if Doomed(s) {
      DoomedFaults(s);
    }
    if CanUseFreed(s) {
      var more :| InternalRun(s, more) && FreedNext(Exec(s, more));
      FateKept(s, more);
      FreedNextIsDoomed(Exec(s, more));
    }
  }

  lemma StepHomeless(s: Flow, step: Step)
    requires Ready(s, step) && Internal(step) && Homeless(Apply(s, step))
    ensures Homeless(s)
  {
    var s' := Apply(s, step);
    var m :| (m in s'.testing || m in s'.taken) && m.conn !in s'.ioThread;
    StepGrown(s, step);
    if !step.UserTake? && !step.UserPush? {
      QuietMessages(s, step);
    }
    assert m in s.testing || m in s.taken;
  }

  lemma {:induction false} RunHomeless(s: Flow, more: seq<Step>)
    requires InternalRun(s, more) && Homeless(Exec(s, more))
    ensures Homeless(s)
    decreases |more|
  {
    if more != [] {
      RunHomeless(Apply(s, more[0]), more[1..]);
      StepHomeless(s, more[0]);
    }
  }

  ghost predicate CanMeetNull(s: Flow) {
    exists more :: InternalRun(s, more) && NullNext(Exec(s, more))
  }

  lemma TakeMeetsNull(s: Flow, m: Msg)
    requires Enabled(s, UserTake(m)) && m.conn !in s.ioThread
    ensures CanMeetNull(s)
  {
    var more, t := [UserTake(m)], Apply(s, UserTake(m));
    assert more[1..] == [] && Legal(t, []) && Exec(t, []) == t;
    assert InternalRun(s, more) && Exec(s, more) == t;
    assert Ready(t, UserPushNull(m));
  }

  lemma HomelessMeetsNull(s: Flow)
    requires s.io != [] && SendersOk(s) && ConnsOk(s) && Homeless(s)
    ensures CanMeetNull(s)
  {
    var m :| (m in s.testing || m in s.taken) && m.conn !in s.ioThread;
    if m in s.taken {
      assert InternalRun(s, []) && Exec(s, []) == s;
      assert Ready(s, UserPushNull(m));
    } else {
      TakeMeetsNull(s, m);
    }
  }

  lemma NullNextIsHomeless(s: Flow)
    requires NullNext(s)
    ensures Homeless(s)
  {
    var m :| Ready(s, UserPushNull(m));
  }

  lemma MeetsNullIsHomeless(s: Flow)
    requires CanMeetNull(s)
    ensures Homeless(s)
  {
    var more :| InternalRun(s, more) && NullNext(Exec(s, more));
    NullNextIsHomeless(Exec(s, more));
    RunHomeless(s, more);
  }

  // A sender can come to use a missing io thread if and only if one is past its test for a
  // connection that no thread has adopted yet.
  lemma NullExactly(n: nat, w: nat, steps: seq<Step>)
    requires n > 0 && Legal(Init(n, w), steps)
    ensures CanMeetNull(Exec(Init(n, w), steps)) <==> Homeless(Exec(Init(n, w), steps))
  {
    var s := Exec(Init(n, w), steps);
    Reachable(n, w, steps);
    if Homeless(s) {
      HomelessMeetsNull(s);
    }
    if CanMeetNull(s) {
      MeetsNullIsHomeless(s);
    }
  }

  // No step of any run without an early close uses a freed connection, but for the user giving back
  // a hold on one, and only a sender that came too soon uses a missing io thread.
  lemma NoEarlyCloseNoFault(n: nat, w: nat, steps: seq<Step>, step: Step)
    requires n > 0 && Legal(Init(n, w), steps) && !ClosedEarly(Init(n, w), steps)
    ensures var s := Exec(Init(n, w), steps);
            Ready(s, step) ==>
              Enabled(s, step) || (step.Drop? && HoldLost(s, step.c)) || (step.UserPushNull? && Homeless(s))
  {
    var s := Exec(Init(n, w), steps);
    Reachable(n, w, steps);
    assert forall c :: Books(s, c);
    if Ready(s, step) && Faults(s, step) && !step.Drop? && !step.UserPushNull? {
      FaultIsDoomed(s, step);
    }
  }

  lemma NoFaultAhead(s: Flow, more: seq<Step>)
    requires Inv(s) && !Doomed(s) && InternalRun(s, more)
    ensures Inv(Exec(s, more)) && !FreedNext(Exec(s, more))
  {
    FateKept(s, more);
    if FreedNext(Exec(s, more)) {
      FreedNextIsDoomed(Exec(s, more));
    }
  }

  lemma FinishStepHoldLost(s: Flow, i: nat, c: Client)
    requires Inv(s) && Enabled(s, Finish(i, false))
    ensures Apply(s, Finish(i, false)).holds == s.holds
    ensures HoldLost(Apply(s, Finish(i, false)), c) <==> HoldLost(s, c)
  {
    assert Books(s, s.io[i].phase.msg.conn);
    FinishOutstanding(s, i, false);
    FinishHoldLost(s, i, c);
  }

  lemma StepHoldLost(s: Flow, step: Step, c: Client)
    requires Inv(s) && Enabled(s, step) && Internal(step)
    ensures Apply(s, step).holds == s.holds
    ensures HoldLost(Apply(s, step), c) <==> HoldLost(s, c)
  {
    if step.Finish? {
      FinishStepHoldLost(s, step.i, c);
    } else if step.UserTake? {
      TakeHoldLost(s, step.m, c);
    } else {
      QuietFate(s, step);
      SameHoldLost(s, Apply(s, step), c);
    }
  }

  lemma {:induction false} RunHoldLost(s: Flow, more: seq<Step>, c: Client)
    requires Inv(s) && InternalRun(s, more)
    ensures Exec(s, more).holds == s.holds && (HoldLost(Exec(s, more), c) <==> HoldLost(s, c))
    decreases |more|
  {
    if more != [] {
      StepInv(s, more[0]);
      StepHoldLost(s, more[0], c);
      RunHoldLost(Apply(s, more[0]), more[1..], c);
    }
  }

  // A connection the user holds comes to be freed all the same if and only if it is closed and
  // was freed before, or a message or sender is left behind to free it.
  lemma HeldFreedExactly(n: nat, w: nat, steps: seq<Step>, c: Client)
    requires n > 0 && Legal(Init(n, w), steps) && !ClosedEarly(Init(n, w), steps)
    requires c in Exec(Init(n, w), steps).holds
    ensures var s := Exec(Init(n, w), steps);
            (exists more :: InternalRun(s, more) && c in Exec(s, more).freed) <==> HoldLost(s, c)
  {
    var s := Exec(Init(n, w), steps);
    Reachable(n, w, steps);
    if more :| InternalRun(s, more) && c in Exec(s, more).freed {
      FateKept(s, more);
      RunHoldLost(s, more, c);
    }
    if HoldLost(s, c) {
      var more := RestIsReached(s);
      NoFaultAhead(s, more);
      RunHoldLost(s, more, c);
      var t := Exec(s, more);
      RestIsDone(t);
      if c in t.refs {
        NothingLeft(t, c);
      }
    }
  }

  // By themselves the threads accept nothing and forget nothing.
  lemma {:induction false} InternalBook(b: Book, more: seq<Step>)
    requires forall k :: 0 <= k < |more| ==> Internal(more[k])
    ensures Entries(b, more).accepted == b.accepted && b.created <= Entries(b, more).created
    decreases |more|
  {
    if more != [] {
      InternalBook(Entry(b, more[0]), more[1..]);
    }
  }

  lemma AllDestroyed(s: Flow, b: Book)
    requires Done(s) && b.created <= s.created
    ensures forall m :: m in b.created ==> m in s.finished
  {
    forall m | m in b.created ensures m in s.finished {
      assert m in s.entered;
      OfCount(s.entered, m);
      OfCount(s.finished, m);
      assert Of(s.finished, m.conn, m.request) == Of(s.entered, m.conn, m.request);
    }
  }

  // After any run without an early close, however the threads interleave, they take at most
  // `Measure` steps by themselves, and when none is left every send is complete, every message has
  // been destroyed and every connection is with its thread, referred to by holds of the user only.
  lemma WorkGetsDone(n: nat, w: nat, steps: seq<Step>, more: seq<Step>)
    requires n > 0 && Legal(Init(n, w), steps) && !ClosedEarly(Init(n, w), steps)
    requires InternalRun(Exec(Init(n, w), steps), more)
    ensures var s := Exec(Init(n, w), steps);
            var t := Exec(s, more);
            && |more| <= Measure(s)
            && (AtRest(t) ==>
                  && Done(t) && |t.io| == n
                  && (forall m :: m in BookOf(steps).created ==> m in t.finished)
                  && (forall i :: 0 <= i < n ==> t.io[i].adopted == ForThread(BookOf(steps).accepted, i, n)))
  {
    var s := Exec(Init(n, w), steps);
    Reachable(n, w, steps);
    InternalRunsEnd(s, more);
    NoFaultAhead(s, more);
    RunInv(s, more);
    RunEntries(s, more);
    if AtRest(Exec(s, more)) {
      RestIsDone(Exec(s, more));
      InternalBook(Kept(s), more);
      AllDestroyed(Exec(s, more), Kept(s));
      forall i | 0 <= i < n ensures Exec(s, more).io[i].adopted == ForThread(BookOf(steps).accepted, i, n) {
        ByHomeIsPromised(s.accepted, i, n);
      }
    }
  }

  lemma {:induction false} Extended(s: Flow, steps: seq<Step>, step: Step)
    requires Legal(s, steps) && Enabled(Exec(s, steps), step)
    ensures Legal(s, steps + [step]) && Exec(s, steps + [step]) == Apply(Exec(s, steps), step)
    decreases |steps|
  {
    if steps == [] {
      assert ([step])[1..] == [] && steps + [step] == [step];
      assert Legal(Apply(s, step), []);
    } else {
      assert (steps + [step])[1..] == steps[1..] + [step];
      Extended(Apply(s, steps[0]), steps[1..], step);
    }
  }

  // An early close is fatal in every reachable state.
  lemma EarlyCloseIsFatal(n: nat, w: nat, steps: seq<Step>, i: nat, c: Client)
    requires n > 0 && Legal(Init(n, w), steps)
    requires Ready(Exec(Init(n, w), steps), Close(i, c)) && ClosesEarly(Exec(Init(n, w), steps), Close(i, c))
    ensures CanUseFreed(Apply(Exec(Init(n, w), steps), Close(i, c)))
  {
    var s := Exec(Init(n, w), steps);
    Reachable(n, w, steps);
    StepInv(s, Close(i, c));
    StepFate(s, Close(i, c));
    DoomedFaults(Apply(s, Close(i, c)));
  }

  // A lone io thread serves the connection and is between callbacks.
  predicate Alone(s: Flow, c: Client) {
    && At(s, 0, Polling) && Serving(s, 0, c) && c in s.ioThread && s.ioThread[c] == 0 && c !in s.freed
  }

  lemma OpenRun(w: nat, c: Client) returns (steps: seq<Step>)
    ensures Legal(Init(1, w), steps)
    ensures var s := Exec(Init(1, w), steps);
            && Alone(s, c) && s.refs[c] == 1 && s.holds == multiset{} && s.testing == {}
            && s.created == {} && s.closed == {}
  {
    var s0 := Init(1, w);
    assert s0.io == [FRESH_IO];
    Extended(s0, [], Accept(c));
    Extended(s0, [] + [Accept(c)], Hand);
    steps := [] + [Accept(c)] + [Hand];
  }

  lemma TestFacts(s: Flow, m: Msg)
    requires Alone(s, m.conn) && !m.request && m !in s.created && m !in s.testing
    ensures Enabled(s, UserTest(m)) && Alone(Apply(s, UserTest(m)), m.conn)
    ensures Apply(s, UserTest(m)) == s.(testing := s.testing + {m})
  {}

  lemma TakeFacts(s: Flow, m: Msg)
    requires Alone(s, m.conn) && m in s.testing
    ensures Enabled(s, UserTake(m)) && Alone(Apply(s, UserTake(m)), m.conn)
    ensures var s' := Apply(s, UserTake(m));
            && s'.refs[m.conn] == s.refs[m.conn] + 1 && s'.holds == s.holds
            && s'.testing == s.testing - {m} && s'.created == s.created + {m} && s'.closed == s.closed
  {}

  lemma OneSendRun(w: nat, a: Msg) returns (steps: seq<Step>)
    requires !a.request
    ensures Legal(Init(1, w), steps)
    ensures var s := Exec(Init(1, w), steps);
            && Alone(s, a.conn) && s.refs[a.conn] == 2 && s.holds == multiset{} && s.testing == {}
            && s.created == {a} && s.closed == {}
  {
    steps := OpenRun(w, a.conn);
    var s := Exec(Init(1, w), steps);
    TestFacts(s, a);
    Extended(Init(1, w), steps, UserTest(a));
    TakeFacts(Apply(s, UserTest(a)), a);
    Extended(Init(1, w), steps + [UserTest(a)], UserTake(a));
    steps := steps + [UserTest(a)] + [UserTake(a)];
  }

  lemma StillOpen(n: nat, w: nat, steps: seq<Step>)
    requires n > 0 && Legal(Init(n, w), steps) && Exec(Init(n, w), steps).closed == {}
    ensures !ClosedEarly(Init(n, w), steps)
  {
    Reachable(n, w, steps);
  }

  // It happens, whatever the pool: a message of the user is on its way, another call is past its
  // status test, and the client hangs up, leaving one message only.
  lemma SenderCloseRun(w: nat, a: Msg, b: Msg) returns (steps: seq<Step>)
    requires a != b && a.conn == b.conn && !a.request && !b.request
    ensures Legal(Init(1, w), steps)
    ensures var s := Exec(Init(1, w), steps);
            && Ready(s, Close(0, a.conn)) && s.refs[a.conn] == 2 && s.holds == multiset{} && s.testing == {b}
            && !ClosedEarly(Init(1, w), steps) && CanUseFreed(Apply(s, Close(0, a.conn)))
  {
    steps := OneSendRun(w, a);
    var s := Exec(Init(1, w), steps);
    TestFacts(s, b);
    Extended(Init(1, w), steps, UserTest(b));
    steps := steps + [UserTest(b)];
    var t := Exec(Init(1, w), steps);
    assert CountFor(t.testing, b.conn) == 1 by {
      CountAdd({}, b, b.conn);
      assert {} + {b} == {b};
    }
    EarlyCloseIsFatal(1, w, steps, 0, a.conn);
    StillOpen(1, w, steps);
  }

  // ... and with two messages on their way.
  lemma EarlyCloseRun(w: nat, a: Msg, b: Msg) returns (steps: seq<Step>)
    requires a != b && a.conn == b.conn && !a.request && !b.request
    ensures Legal(Init(1, w), steps)
    ensures var s := Exec(Init(1, w), steps);
            && Ready(s, Close(0, a.conn)) && s.refs[a.conn] == 3 && s.holds == multiset{} && s.testing == {}
            && !ClosedEarly(Init(1, w), steps) && CanUseFreed(Apply(s, Close(0, a.conn)))
  {
    steps := OneSendRun(w, a);
    var s := Exec(Init(1, w), steps);
    TestFacts(s, b);
    Extended(Init(1, w), steps, UserTest(b));
    TakeFacts(Apply(s, UserTest(b)), b);
    Extended(Init(1, w), steps + [UserTest(b)], UserTake(b));
    steps := steps + [UserTest(b)] + [UserTake(b)];
    EarlyCloseIsFatal(1, w, steps, 0, a.conn);
    StillOpen(1, w, steps);
  }

  // A hold lost: one message is out when a connection the user holds is closed.
  lemma HoldLostRun(w: nat, a: Msg) returns (steps: seq<Step>)
    requires !a.request
    ensures Legal(Init(1, w), steps)
    ensures var s := Exec(Init(1, w), steps);
            && Ready(s, Close(0, a.conn)) && a.conn in s.holds && !ClosedEarly(Init(1, w), steps)
            && !ClosesEarly(s, Close(0, a.conn)) && HoldLost(Apply(s, Close(0, a.conn)), a.conn)
  {
    steps := OneSendRun(w, a);
    Extended(Init(1, w), steps, Hold(a.conn));
    steps := steps + [Hold(a.conn)];
    assert CountFor(Exec(Init(1, w), steps).testing, a.conn) == 0;
    StillOpen(1, w, steps);
  }

  // A sender too soon: it is past its test while the leader has the connection still in hand.
  lemma HomelessRun(w: nat, a: Msg) returns (steps: seq<Step>)
    requires !a.request
    ensures Legal(Init(2, w), steps) && !ClosedEarly(Init(2, w), steps) && Homeless(Exec(Init(2, w), steps))
  {
    var s0 := Init(2, w);
    assert s0.io == [FRESH_IO, FRESH_IO];
    Extended(s0, [], Accept(a.conn));
    Extended(s0, [] + [Accept(a.conn)], UserTest(a));
    steps := [] + [Accept(a.conn)] + [UserTest(a)];
    assert a in Exec(s0, steps).testing && a.conn !in Exec(s0, steps).ioThread;
    StillOpen(2, w, steps);
  }
}
