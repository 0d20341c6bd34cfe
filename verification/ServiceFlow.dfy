/** Connections and messages on their way between threads (src/xv_service.c).

    A service with `n` io threads and `w` worker threads (possibly none).  The leader accepts;
    each connection goes to one io thread through its connection queue; each request decoded by
    that thread goes to the pool and comes back through the thread's message queue, or is
    processed on the spot when there is no pool.  An io thread has two eventfds on one loop, a
    worker has one.  Connections are closed, reclaimed and freed on the way.  Every step is one
    atomic action of one thread, and the runs are all interleavings.

    A step that uses a connection after it was freed, or its io_thread before it is set, is a
    fault; a run ends there.  Being
    reported by epoll and reading the eventfd is one step here: in between the counter can only
    grow.  A close is one step, at its test of the reference count: what other threads do between
    its change of the status and that test, they could do before both.
 */
module ServiceFlow {
  import Mailbox
  import WorkerPool

  datatype Client = Client(id: nat, fd: nat)

  // A message is created by decoding a request, or by xv_service_send_message.
  datatype Msg = Msg(id: nat, conn: Client, request: bool)

  datatype IoPhase =
    | Polling                    // between two callbacks
    | Accepted(conn: Client)     // leader: accepted, not yet handed over
    | Handing(to: nat)           // leader: pushed to a connection queue, about to signal
    | ConnCheck                  // io_thread_add_conn_cb: about to test the queue size
    | ConnPop
    | Adopting(conn: Client)
    | Decoded(msg: Msg)          // decoded, not yet pushed to the pool
    | Tasking(worker: nat)       // pushed to a worker, about to signal
    | MsgCheck                   // io_thread_return_message_cb: about to test the queue size
    | MsgPop
    | Returned(msg: Msg)

  datatype IoThread = IoThread(
    phase: IoPhase,
    connQ: seq<Client>, connEv: nat,
    msgQ: seq<Msg>, msgEv: nat,
    users: set<Msg>,             // sends by the user between push and signal
    adopted: seq<Client>)        // connections whose io_thread was set to this one

  datatype WorkerPhase = Asleep | Checking | Popping | Holding(msg: Msg) | Returning(to: nat)

  datatype Worker = Worker(phase: WorkerPhase, queue: seq<Msg>, ev: nat)

  datatype Flow = Flow(
    io: seq<IoThread>,
    workers: seq<Worker>,
    ioThread: map<Client, nat>,  // conn->io_thread, once set
    refs: map<Client, int>,      // conn->ref_count
    holds: multiset<Client>,     // references taken by the user
    testing: set<Msg>,           // sends by the user past the status test, without a reference yet
    taken: set<Msg>,             // ... with the reference taken, not yet pushed
    closed: set<Client>,
    freed: set<Client>,          // xv_connection_destroy was called
    reclaimed: set<Client>,      // ... with table entry and descriptor given back
    accepted: seq<Client>,       // history of accepts
    created: set<Msg>,           // history of message creation
    entered: seq<Msg>,           // history: requests as decoded, messages of the user as pushed
    finished: seq<Msg>)          // history of message destruction

  const FRESH_IO := IoThread(Polling, [], 0, [], 0, {}, [])
  const FRESH_WORKER := Worker(Asleep, [], 0)

  function Init(n: nat, w: nat): Flow {
    Flow(seq(n, _ => FRESH_IO), seq(w, _ => FRESH_WORKER), map[], map[], multiset{}, {}, {}, {}, {}, {}, [], {}, [], [])
  }

  datatype Step =
    | Accept(c: Client)
    | Hand
    | HandSignal
    | WakeConns(i: nat)
    | CheckConns(i: nat)
    | PopConn(i: nat)
    | Adopt(i: nat)
    | Decode(i: nat, m: Msg, fails: bool)   // `fails`: the write of a synchronous reply does
    | PushTask(i: nat, address: nat)        // `address` is what malloc returned for it
    | TaskSignal(i: nat)
    | Close(i: nat, c: Client)              // end of stream, malformed input or failed write
    | WakeMsgs(i: nat)
    | CheckMsgs(i: nat)
    | PopMsg(i: nat)
    | Finish(i: nat, fails: bool)           // `fails`: the write of the reply does
    | WakeWorker(w: nat)
    | CheckTasks(w: nat)
    | PopTask(w: nat)
    | Return(w: nat)
    | ReturnSignal(w: nat)
    | UserTest(m: Msg)                      // xv_service_send_message finds the connection open,
    | UserTake(m: Msg)                      // takes the message's reference,
    | UserPush(m: Msg)                      // pushes it to conn->io_thread,
    | UserPushNull(m: Msg)                  // or finds that still NULL,
    | UserSignal(m: Msg, i: nat)            // signals
    | Hold(c: Client)                       // xv_connection_incr_ref by the user
    | Drop(c: Client)                       // xv_connection_decr_ref

  // The io thread of a connection, by its descriptor.
  function Home(c: Client, n: nat): (i: nat)
    requires n > 0
    ensures i < n && (n > 1 ==> i > 0)
  {
    if n == 1 then 0 else c.fd % (n - 1) + 1
  }

  function WorkerOf(address: nat, workers: nat): (w: nat)
    requires workers > 0
    ensures w < workers
  {
    WorkerPool.ServiceKey(address) % workers
  }

  predicate At(s: Flow, i: nat, phase: IoPhase) { i < |s.io| && s.io[i].phase == phase }

  predicate WorkerAt(s: Flow, w: nat, phase: WorkerPhase) { w < |s.workers| && s.workers[w].phase == phase }

  // A connection whose callbacks thread `i` still runs.
  predicate Serving(s: Flow, i: nat, c: Client) {
    i < |s.io| && c in s.io[i].adopted && c !in s.closed && c in s.refs
  }

  predicate HasHome(s: Flow, c: Client) { c in s.ioThread && s.ioThread[c] < |s.io| && c in s.refs }

  // Where control stands, a thread can take the step.
  predicate Ready(s: Flow, step: Step) {
    s.io != [] &&
    match step
    case Accept(c) => At(s, 0, Polling) && c !in s.accepted
    case Hand => s.io[0].phase.Accepted?
    case HandSignal => s.io[0].phase.Handing? && s.io[0].phase.to < |s.io|
    case WakeConns(i) => At(s, i, Polling) && s.io[i].connEv > 0
    case CheckConns(i) => At(s, i, ConnCheck)
    case PopConn(i) => At(s, i, ConnPop) && s.io[i].connQ != []
    case Adopt(i) => i < |s.io| && s.io[i].phase.Adopting?
    case Decode(i, m, _) => At(s, i, Polling) && Serving(s, i, m.conn) && m.request && m !in s.created
    case PushTask(i, address) => i < |s.io| && s.io[i].phase.Decoded? && s.workers != [] && address > 16
    case TaskSignal(i) => i < |s.io| && s.io[i].phase.Tasking? && s.io[i].phase.worker < |s.workers|
    case Close(i, c) => At(s, i, Polling) && Serving(s, i, c)
    case WakeMsgs(i) => At(s, i, Polling) && s.io[i].msgEv > 0
    case CheckMsgs(i) => At(s, i, MsgCheck)
    case PopMsg(i) => At(s, i, MsgPop) && s.io[i].msgQ != []
    case Finish(i, _) => i < |s.io| && s.io[i].phase.Returned? && s.io[i].phase.msg.conn in s.refs
    case WakeWorker(w) => WorkerAt(s, w, Asleep) && s.workers[w].ev > 0
    case CheckTasks(w) => WorkerAt(s, w, Checking)
    case PopTask(w) => WorkerAt(s, w, Popping) && s.workers[w].queue != []
    case Return(w) => w < |s.workers| && s.workers[w].phase.Holding? && HasHome(s, s.workers[w].phase.msg.conn)
    case ReturnSignal(w) => w < |s.workers| && s.workers[w].phase.Returning? && s.workers[w].phase.to < |s.io|
    case UserTest(m) =>
      m.conn in s.refs && m.conn !in s.closed && !m.request && m !in s.created && m !in s.testing
    case UserTake(m) => m in s.testing && m.conn in s.refs
    case UserPush(m) => m in s.taken && HasHome(s, m.conn)
    case UserPushNull(m) => m in s.taken && m.conn !in s.ioThread
    case UserSignal(m, i) => i < |s.io| && m in s.io[i].users
    case Hold(c) => c in s.refs && c !in s.freed
    case Drop(c) => c in s.holds && c in s.refs
  }

  // thread_pool_task_cb reads conn->io_thread, io_thread_return_message_cb reads conn->status,
  // xv_service_send_message changes conn->ref_count and reads conn->io_thread.
  predicate Faults(s: Flow, step: Step)
    requires Ready(s, step)
  {
    match step
    case Return(w) => s.workers[w].phase.msg.conn in s.freed
    case Finish(i, _) => s.io[i].phase.msg.conn in s.freed
    case UserTake(m) => m.conn in s.freed
    case UserPush(m) => m.conn in s.freed
    case UserPushNull(_) => true
    case Drop(c) => c in s.freed
    case _ => false
  }

  predicate Enabled(s: Flow, step: Step) { Ready(s, step) && !Faults(s, step) }

  function SetIo(s: Flow, i: nat, t: IoThread): Flow
    requires i < |s.io|
  {
    s.(io := s.io[i := t])
  }

  function SetPhase(s: Flow, i: nat, phase: IoPhase): Flow
    requires i < |s.io|
  {
    SetIo(s, i, s.io[i].(phase := phase))
  }

  function SetWorker(s: Flow, w: nat, t: Worker): Flow
    requires w < |s.workers|
  {
    s.(workers := s.workers[w := t])
  }

  function EnqueueMsg(s: Flow, i: nat, m: Msg): Flow
    requires i < |s.io|
  {
    SetIo(s, i, s.io[i].(msgQ := s.io[i].msgQ + [m]))
  }

  function SignalMsgs(s: Flow, i: nat): Flow
    requires i < |s.io|
  {
    SetIo(s, i, s.io[i].(msgEv := Mailbox.Signal(s.io[i].msgEv)))
  }

  // xv_message_init and xv_message_destroy
  function Created(s: Flow, m: Msg): Flow
    requires m.conn in s.refs
  {
    s.(created := s.created + {m}, refs := s.refs[m.conn := s.refs[m.conn] + 1])
  }

  function Entered(s: Flow, m: Msg): Flow { s.(entered := s.entered + [m]) }

  function Destroyed(s: Flow, m: Msg): Flow
    requires m.conn in s.refs
  {
    s.(finished := s.finished + [m], refs := s.refs[m.conn := s.refs[m.conn] - 1])
  }

  // xv_connection_close: reclaimed at once, or left to the messages that still refer to it
  function Closed(s: Flow, c: Client): Flow
    requires c in s.refs
  {
    var s1 := s.(closed := s.closed + {c});
    if s.refs[c] > 1 then s1 else s1.(freed := s.freed + {c}, reclaimed := s.reclaimed + {c})
  }

  // One message in io_thread_return_message_cb, or a request processed on the spot: the reply is
  // written, which may close the connection while the message is alive, and the message is
  // destroyed; for a connection closed before, the connection is freed with it.
  function Processed(s: Flow, m: Msg, fails: bool): Flow
    requires m.conn in s.refs
  {
    if m.conn in s.closed then
      var s1 := Destroyed(s, m);
      s1.(freed := s1.freed + {m.conn})
    else
      Destroyed(if fails then Closed(s, m.conn) else s, m)
  }

  function Apply(s: Flow, step: Step): Flow
    requires Ready(s, step)
  {
    match step
    case Accept(c) => SetPhase(s, 0, Accepted(c)).(accepted := s.accepted + [c], refs := s.refs[c := 1])
    case Hand =>
      var c := s.io[0].phase.conn;
      if |s.io| == 1 then
        SetIo(s, 0, s.io[0].(phase := Polling, adopted := s.io[0].adopted + [c])).(ioThread := s.ioThread[c := 0])
      else
        var i := Home(c, |s.io|);
        SetIo(SetPhase(s, 0, Handing(i)), i, s.io[i].(connQ := s.io[i].connQ + [c]))
    case HandSignal =>
      var i := s.io[0].phase.to;
      var s1 := SetPhase(s, 0, Polling);
      SetIo(s1, i, s1.io[i].(connEv := Mailbox.Signal(s.io[i].connEv)))
    case WakeConns(i) => SetIo(s, i, s.io[i].(phase := ConnCheck, connEv := 0))
    case CheckConns(i) => SetPhase(s, i, if |s.io[i].connQ| > 0 then ConnPop else Polling)
    case PopConn(i) => SetIo(s, i, s.io[i].(phase := Adopting(s.io[i].connQ[0]), connQ := s.io[i].connQ[1..]))
    case Adopt(i) =>
      var c := s.io[i].phase.conn;
      SetIo(s, i, s.io[i].(phase := ConnCheck, adopted := s.io[i].adopted + [c])).(ioThread := s.ioThread[c := i])
    case Decode(i, m, fails) =>
      var s1 := Entered(Created(s, m), m);
      if s.workers == [] then Processed(s1, m, fails) else SetPhase(s1, i, Decoded(m))
    case PushTask(i, address) =>
      var w := WorkerOf(address, |s.workers|);
      SetWorker(SetPhase(s, i, Tasking(w)), w, s.workers[w].(queue := s.workers[w].queue + [s.io[i].phase.msg]))
    case TaskSignal(i) =>
      var w := s.io[i].phase.worker;
      SetWorker(SetPhase(s, i, Polling), w, s.workers[w].(ev := Mailbox.Signal(s.workers[w].ev)))
    case Close(i, c) => Closed(s, c)
    case WakeMsgs(i) => SetIo(s, i, s.io[i].(phase := MsgCheck, msgEv := 0))
    case CheckMsgs(i) => SetPhase(s, i, if |s.io[i].msgQ| > 0 then MsgPop else Polling)
    case PopMsg(i) => SetIo(s, i, s.io[i].(phase := Returned(s.io[i].msgQ[0]), msgQ := s.io[i].msgQ[1..]))
    case Finish(i, fails) => Processed(SetPhase(s, i, MsgCheck), s.io[i].phase.msg, fails)
    case WakeWorker(w) => SetWorker(s, w, s.workers[w].(phase := Checking, ev := 0))
    case CheckTasks(w) => SetWorker(s, w, s.workers[w].(phase := if |s.workers[w].queue| > 0 then Popping else Asleep))
    case PopTask(w) =>
      SetWorker(s, w, s.workers[w].(phase := Holding(s.workers[w].queue[0]), queue := s.workers[w].queue[1..]))
    case Return(w) =>
      var m := s.workers[w].phase.msg;
      var i := s.ioThread[m.conn];
      EnqueueMsg(SetWorker(s, w, s.workers[w].(phase := Returning(i))), i, m)
    case ReturnSignal(w) =>
      SignalMsgs(SetWorker(s, w, s.workers[w].(phase := Checking)), s.workers[w].phase.to)
    case UserTest(m) => s.(testing := s.testing + {m})
    case UserTake(m) => Created(s, m).(testing := s.testing - {m}, taken := s.taken + {m})
    case UserPush(m) =>
      var i := s.ioThread[m.conn];
      var s1 := Entered(EnqueueMsg(s, i, m), m).(taken := s.taken - {m});
      SetIo(s1, i, s1.io[i].(users := s.io[i].users + {m}))
    case UserPushNull(_) => s
    case UserSignal(m, i) => SetIo(s, i, s.io[i].(msgEv := Mailbox.Signal(s.io[i].msgEv), users := s.io[i].users - {m}))
    case Hold(c) => s.(refs := s.refs[c := s.refs[c] + 1], holds := s.holds + multiset{c})
    case Drop(c) => s.(refs := s.refs[c := s.refs[c] - 1], holds := s.holds - multiset{c})
  }

  ghost predicate Legal(s: Flow, steps: seq<Step>)
    decreases |steps|
  {
    steps == [] || (Enabled(s, steps[0]) && Legal(Apply(s, steps[0]), steps[1..]))
  }

  ghost function Exec(s: Flow, steps: seq<Step>): Flow
    requires Legal(s, steps)
    decreases |steps|
  {
    if steps == [] then s else Exec(Apply(s, steps[0]), steps[1..])
  }

  // ------------------------------------------------------------------------------------
  // Where things are
  // ------------------------------------------------------------------------------------

  function HeldReturned(p: IoPhase): seq<Msg> { if p.Returned? then [p.msg] else [] }

  function HeldDecoded(p: IoPhase): seq<Msg> { if p.Decoded? then [p.msg] else [] }

  function HeldBy(p: WorkerPhase): seq<Msg> { if p.Holding? then [p.msg] else [] }

  // The only worker the service's hash code ever selects.
  function TheWorker(s: Flow): (w: nat)
    requires s.workers != []
    ensures w < |s.workers|
  {
    1 % |s.workers|
  }

  // The worker's hand, then its queue.
  function InPool(s: Flow): seq<Msg> {
    if s.workers == [] then []
    else HeldBy(s.workers[TheWorker(s)].phase) + s.workers[TheWorker(s)].queue
  }

  function Front(s: Flow, i: nat): seq<Msg>
    requires i < |s.io|
  {
    HeldReturned(s.io[i].phase) + s.io[i].msgQ
  }

  function Back(s: Flow, i: nat): seq<Msg>
    requires i < |s.io|
  {
    InPool(s) + HeldDecoded(s.io[i].phase)
  }

  // Everything between entering and destruction for the connections of thread `i`, oldest
  // first: its hand, its message queue, the pool, its freshly decoded request.
  function Pipeline(s: Flow, i: nat): seq<Msg>
    requires i < |s.io|
  {
    Front(s, i) + Back(s, i)
  }

  ghost predicate MsgOk(s: Flow, m: Msg) { m.conn in s.ioThread && m.conn in s.refs }

  // A message that thread `i` may have in its queue or hand; requests come from the pool only.
  ghost predicate MsgAt(s: Flow, m: Msg, i: nat)
    requires s.io != []
  {
    MsgOk(s, m) && Home(m.conn, |s.io|) == i && (s.workers == [] ==> !m.request)
  }

  ghost predicate PhaseOk(s: Flow, i: nat)
    requires i < |s.io|
  {
    match s.io[i].phase
    case Accepted(c) => i == 0 && c in s.refs
    case Handing(to) => i == 0 && 0 < to < |s.io|
    case Adopting(c) => c in s.refs && Home(c, |s.io|) == i
    case Decoded(m) => s.workers != [] && m.request && MsgAt(s, m, i)
    case Tasking(w) => s.workers != [] && w == TheWorker(s)
    case Returned(m) => MsgAt(s, m, i)
    case _ => true
  }

  ghost predicate IoOk(s: Flow, i: nat)
    requires i < |s.io|
  {
    && PhaseOk(s, i)
    && (forall c :: c in s.io[i].connQ ==> c in s.refs && Home(c, |s.io|) == i)
    && (forall c :: c in s.io[i].adopted ==> c in s.ioThread && Home(c, |s.io|) == i)
    && (forall m :: m in s.io[i].msgQ ==> MsgAt(s, m, i))
  }

  ghost predicate WorkersOk(s: Flow) {
    && (forall w :: 0 <= w < |s.workers| && w != TheWorker(s) ==> s.workers[w] == FRESH_WORKER)
    && (forall w :: 0 <= w < |s.workers| && s.workers[w].phase.Returning? ==> s.workers[w].phase.to < |s.io|)
    && (forall m :: m in InPool(s) ==> m.request && MsgOk(s, m))
  }

  ghost predicate ConnsOk(s: Flow)
    requires s.io != []
  {
    && (forall c :: c in s.ioThread ==> s.ioThread[c] == Home(c, |s.io|) && c in s.refs)
    && (forall c :: c in s.refs ==> c in s.accepted)
    && (forall c :: c in s.closed ==> c in s.ioThread)
    && s.reclaimed <= s.freed <= s.closed
  }

  // What the user's threads are about to send is for accepted connections.
  ghost predicate SendersOk(s: Flow) {
    && (forall m :: m in s.testing ==> !m.request && m.conn in s.refs)
    && (forall m :: m in s.taken ==> !m.request && m.conn in s.refs)
  }

  // Placement: whatever a thread holds belongs to a connection at home there, every set
  // io_thread is the home, and only one worker is in use.
  ghost predicate Placed(s: Flow) {
    && s.io != [] && ConnsOk(s) && SendersOk(s)
    && (forall i :: 0 <= i < |s.io| ==> IoOk(s, i))
    && WorkersOk(s)
  }

  // ------------------------------------------------------------------------------------
  // Every step keeps the placement
  // ------------------------------------------------------------------------------------

  // The same threads, and no less known about connections.
  predicate Grown(s: Flow, s': Flow) {
    && |s'.io| == |s.io| && |s'.workers| == |s.workers|
    && s.ioThread.Keys <= s'.ioThread.Keys && s.refs.Keys <= s'.refs.Keys
  }

  lemma IoOkFrame(s: Flow, s': Flow, i: nat)
    requires Grown(s, s') && i < |s.io| && s'.io[i] == s.io[i] && IoOk(s, i)
    ensures IoOk(s', i)
  {}

  lemma OneIoPlaced(s: Flow, s': Flow, i: nat)
    requires Placed(s) && Grown(s, s') && i < |s.io|
    requires s'.io == s.io[i := s'.io[i]] && s'.workers == s.workers
    requires s'.testing <= s.testing && s'.taken <= s.taken
    requires ConnsOk(s') && IoOk(s', i)
    ensures Placed(s')
  {
    forall j | 0 <= j < |s'.io| ensures IoOk(s', j) {
      if j != i { IoOkFrame(s, s', j); }
    }
    assert InPool(s') == InPool(s);
  }

  lemma OneWorkerPlaced(s: Flow, w: nat, t: Worker)
    requires Placed(s) && w < |s.workers| && WorkersOk(SetWorker(s, w, t))
    ensures Placed(SetWorker(s, w, t))
  {
    forall j | 0 <= j < |s.io| ensures IoOk(SetWorker(s, w, t), j) {
      IoOkFrame(s, SetWorker(s, w, t), j);
    }
  }

  lemma PhasePlaced(s: Flow, i: nat, phase: IoPhase)
    requires Placed(s) && i < |s.io| && PhaseOk(SetPhase(s, i, phase), i)
    ensures Placed(SetPhase(s, i, phase))
  {
    assert IoOk(s, i);
    OneIoPlaced(s, SetPhase(s, i, phase), i);
  }

  // Eventfds and senders are of no concern to the placement.
  lemma CountersPlaced(s: Flow, i: nat, t: IoThread)
    requires Placed(s) && i < |s.io|
    requires t == s.io[i].(connEv := t.connEv, msgEv := t.msgEv, users := t.users)
    ensures Placed(SetIo(s, i, t))
  {
    assert IoOk(s, i);
    OneIoPlaced(s, SetIo(s, i, t), i);
  }

  lemma EnqueuePlaced(s: Flow, i: nat, m: Msg)
    requires Placed(s) && i < |s.io| && MsgAt(s, m, i)
    ensures Placed(EnqueueMsg(s, i, m))
  {
    assert IoOk(s, i);
    OneIoPlaced(s, EnqueueMsg(s, i, m), i);
  }

  lemma AcceptPlaced(s: Flow, c: Client)
    requires Placed(s) && Ready(s, Accept(c))
    ensures Placed(Apply(s, Accept(c)))
  {
    assert IoOk(s, 0);
    OneIoPlaced(s, Apply(s, Accept(c)), 0);
  }

  lemma PopConnPlaced(s: Flow, i: nat)
    requires Placed(s) && Ready(s, PopConn(i))
    ensures Placed(Apply(s, PopConn(i)))
  {
    assert IoOk(s, i);
    OneIoPlaced(s, Apply(s, PopConn(i)), i);
  }

  lemma AdoptPlaced(s: Flow, i: nat)
    requires Placed(s) && Ready(s, Adopt(i))
    ensures Placed(Apply(s, Adopt(i)))
  {
    assert IoOk(s, i);
    OneIoPlaced(s, Apply(s, Adopt(i)), i);
  }

  lemma HandAlonePlaced(s: Flow)
    requires Placed(s) && Ready(s, Hand) && |s.io| == 1
    ensures Placed(Apply(s, Hand))
  {
    assert IoOk(s, 0);
    OneIoPlaced(s, Apply(s, Hand), 0);
  }

  lemma HandOverPlaced(s: Flow)
    requires Placed(s) && Ready(s, Hand) && |s.io| > 1
    ensures Placed(Apply(s, Hand))
  {
    assert IoOk(s, 0);
    var i := Home(s.io[0].phase.conn, |s.io|);
    var s1 := SetPhase(s, 0, Handing(i));
    PhasePlaced(s, 0, Handing(i));
    assert IoOk(s1, i);
    OneIoPlaced(s1, Apply(s, Hand), i);
  }

  lemma HandPlaced(s: Flow)
    requires Placed(s) && Ready(s, Hand)
    ensures Placed(Apply(s, Hand))
  {
    if |s.io| == 1 {
      HandAlonePlaced(s);
    } else {
      HandOverPlaced(s);
    }
  }

  lemma HandSignalPlaced(s: Flow)
    requires Placed(s) && Ready(s, HandSignal)
    ensures Placed(Apply(s, HandSignal))
  {
    var i := s.io[0].phase.to;
    PhasePlaced(s, 0, Polling);
    CountersPlaced(SetPhase(s, 0, Polling), i, Apply(s, HandSignal).io[i]);
  }

  predicate LoopStep(step: Step) {
    step.WakeConns? || step.CheckConns? || step.WakeMsgs? || step.CheckMsgs?
  }

  lemma CheckPlaced(s: Flow, step: Step)
    requires Placed(s) && Ready(s, step) && (step.CheckConns? || step.CheckMsgs?)
    ensures Placed(Apply(s, step))
  {
    PhasePlaced(s, step.i, Apply(s, step).io[step.i].phase);
  }

  lemma WakePlaced(s: Flow, step: Step)
    requires Placed(s) && Ready(s, step) && (step.WakeConns? || step.WakeMsgs?)
    ensures Placed(Apply(s, step))
  {
    var i := step.i;
    var t := Apply(s, step).io[i];
    PhasePlaced(s, i, t.phase);
    CountersPlaced(SetPhase(s, i, t.phase), i, t);
    assert Apply(s, step) == SetIo(SetPhase(s, i, t.phase), i, t);
  }

  lemma LoopStepPlaced(s: Flow, step: Step)
    requires Placed(s) && Ready(s, step) && LoopStep(step)
    ensures Placed(Apply(s, step))
  {
    if step.CheckConns? || step.CheckMsgs? {
      CheckPlaced(s, step);
    } else {
      WakePlaced(s, step);
    }
  }

  lemma PopMsgPlaced(s: Flow, i: nat)
    requires Placed(s) && Ready(s, PopMsg(i))
    ensures Placed(Apply(s, PopMsg(i)))
  {
    var q := s.io[i].msgQ;
    var s' := Apply(s, PopMsg(i));
    assert IoOk(s, i) && MsgAt(s, q[0], i);
    forall m | m in q[1..] ensures MsgAt(s', m, i) {
      assert m in q;
    }
    OneIoPlaced(s, s', i);
  }

  // The life of a message touches reference counts and histories, not the threads.
  lemma ProcessedPlaced(s: Flow, m: Msg, fails: bool)
    requires Placed(s) && m.conn in s.refs && m.conn in s.ioThread
    ensures Placed(Processed(s, m, fails)) && Grown(s, Processed(s, m, fails))
    ensures Processed(s, m, fails).io == s.io && Processed(s, m, fails).workers == s.workers
  {
    var s' := Processed(s, m, fails);
    assert IoOk(s, 0);
    assert ConnsOk(s');
    IoOkFrame(s, s', 0);
    OneIoPlaced(s, s', 0);
  }

  lemma CreatedPlaced(s: Flow, m: Msg)
    requires Placed(s) && m.conn in s.refs
    ensures var s' := Entered(Created(s, m), m);
            Placed(s') && Grown(s, s')
  {
    var s' := Entered(Created(s, m), m);
    assert IoOk(s, 0);
    IoOkFrame(s, s', 0);
    OneIoPlaced(s, s', 0);
  }

  lemma SyncDecodePlaced(s: Flow, i: nat, m: Msg, fails: bool)
    requires Placed(s) && Ready(s, Decode(i, m, fails)) && s.workers == []
    ensures Placed(Apply(s, Decode(i, m, fails)))
  {
    assert IoOk(s, i);
    CreatedPlaced(s, m);
    ProcessedPlaced(Entered(Created(s, m), m), m, fails);
  }

  lemma PoolDecodePlaced(s: Flow, i: nat, m: Msg, fails: bool)
    requires Placed(s) && Ready(s, Decode(i, m, fails)) && s.workers != []
    ensures Placed(Apply(s, Decode(i, m, fails)))
    ensures Home(m.conn, |s.io|) == i
  {
    assert IoOk(s, i);
    CreatedPlaced(s, m);
    PhasePlaced(Entered(Created(s, m), m), i, Decoded(m));
  }

  lemma DecodePlaced(s: Flow, i: nat, m: Msg, fails: bool)
    requires Placed(s) && Ready(s, Decode(i, m, fails))
    ensures Placed(Apply(s, Decode(i, m, fails)))
  {
    if s.workers == [] {
      SyncDecodePlaced(s, i, m, fails);
    } else {
      PoolDecodePlaced(s, i, m, fails);
    }
  }

  lemma ClosePlaced(s: Flow, i: nat, c: Client)
    requires Placed(s) && Ready(s, Close(i, c))
    ensures Placed(Apply(s, Close(i, c)))
  {
    var s' := Apply(s, Close(i, c));
    assert IoOk(s, i);
    assert ConnsOk(s');
    IoOkFrame(s, s', i);
    OneIoPlaced(s, s', i);
  }

  lemma FinishPlaced(s: Flow, i: nat, fails: bool)
    requires Placed(s) && Ready(s, Finish(i, fails))
    ensures Placed(Apply(s, Finish(i, fails)))
  {
    assert IoOk(s, i);
    PhasePlaced(s, i, MsgCheck);
    ProcessedPlaced(SetPhase(s, i, MsgCheck), s.io[i].phase.msg, fails);
  }

  lemma UserPushPlaced(s: Flow, m: Msg)
    requires Placed(s) && Ready(s, UserPush(m))
    ensures Placed(Apply(s, UserPush(m)))
  {
    var i := s.ioThread[m.conn];
    EnqueuePlaced(s, i, m);
    var s1 := Entered(EnqueueMsg(s, i, m), m).(taken := s.taken - {m});
    assert IoOk(EnqueueMsg(s, i, m), i);
    IoOkFrame(EnqueueMsg(s, i, m), s1, i);
    OneIoPlaced(EnqueueMsg(s, i, m), s1, i);
    CountersPlaced(s1, i, Apply(s, UserPush(m)).io[i]);
  }

  lemma UserSignalPlaced(s: Flow, m: Msg, i: nat)
    requires Placed(s) && Ready(s, UserSignal(m, i))
    ensures Placed(Apply(s, UserSignal(m, i)))
  {
    CountersPlaced(s, i, Apply(s, UserSignal(m, i)).io[i]);
  }

  // Steps of the user that touch no thread.
  predicate UserSide(step: Step) {
    step.UserTest? || step.UserTake? || step.UserPushNull? || step.Hold? || step.Drop?
  }

  // The threads, the connections and the histories of messages stay as they are.
  predicate SameThreads(s: Flow, s': Flow) {
    && s'.io == s.io && s'.workers == s.workers && s'.ioThread == s.ioThread && s'.accepted == s.accepted
    && s'.closed == s.closed && s'.freed == s.freed && s'.entered == s.entered && s'.finished == s.finished
  }

  lemma UserSideMoves(s: Flow, step: Step)
    requires Ready(s, step) && UserSide(step)
    ensures SameThreads(s, Apply(s, step)) && Apply(s, step).refs.Keys == s.refs.Keys
  {
    if step.Hold? || step.Drop? {
      HoldMoves(s, step);
    }
  }

  lemma HoldMoves(s: Flow, step: Step)
    requires Ready(s, step) && (step.Hold? || step.Drop?)
    ensures SameThreads(s, Apply(s, step)) && Apply(s, step).refs.Keys == s.refs.Keys
  {}

  lemma UserSidePlaced(s: Flow, step: Step)
    requires Placed(s) && Ready(s, step) && UserSide(step)
    ensures Placed(Apply(s, step))
  {
    var s' := Apply(s, step);
    forall i | 0 <= i < |s.io| ensures IoOk(s', i) {
      IoOkFrame(s, s', i);
    }
    assert InPool(s') == InPool(s);
  }

  lemma PushTaskPool(s: Flow, i: nat, address: nat)
    requires Ready(s, PushTask(i, address))
    ensures WorkerOf(address, |s.workers|) == TheWorker(s)
    ensures InPool(Apply(s, PushTask(i, address))) == InPool(s) + [s.io[i].phase.msg]
  {}

  lemma PushTaskPlaced(s: Flow, i: nat, address: nat)
    requires Placed(s) && Ready(s, PushTask(i, address))
    ensures Placed(Apply(s, PushTask(i, address)))
  {
    assert IoOk(s, i);
    PushTaskPool(s, i, address);
    var w := WorkerOf(address, |s.workers|);
    PhasePlaced(s, i, Tasking(w));
    OneWorkerPlaced(SetPhase(s, i, Tasking(w)), w, Apply(s, PushTask(i, address)).workers[w]);
  }

  // A worker that has anything to signal is the one in use.
  lemma TaskSignalPlaced(s: Flow, i: nat)
    requires Placed(s) && Ready(s, TaskSignal(i))
    ensures Placed(Apply(s, TaskSignal(i)))
    ensures InPool(Apply(s, TaskSignal(i))) == InPool(s)
  {
    assert IoOk(s, i);
    var w := s.io[i].phase.worker;
    PhasePlaced(s, i, Polling);
    var s' := Apply(s, TaskSignal(i));
    assert InPool(s') == InPool(s);
    OneWorkerPlaced(SetPhase(s, i, Polling), w, s'.workers[w]);
  }

  lemma PopTaskPool(s: Flow, w: nat)
    requires Ready(s, PopTask(w)) && w == TheWorker(s)
    ensures InPool(Apply(s, PopTask(w))) == InPool(s)
  {
    assert s.workers[w].queue == [s.workers[w].queue[0]] + s.workers[w].queue[1..];
  }

  lemma PopTaskPlaced(s: Flow, w: nat)
    requires Placed(s) && Ready(s, PopTask(w))
    ensures Placed(Apply(s, PopTask(w))) && InPool(Apply(s, PopTask(w))) == InPool(s)
  {
    assert w == TheWorker(s);
    PopTaskPool(s, w);
    OneWorkerPlaced(s, w, Apply(s, PopTask(w)).workers[w]);
  }

  lemma WorkerStepPlaced(s: Flow, step: Step)
    requires Placed(s) && Ready(s, step) && (step.WakeWorker? || step.CheckTasks?)
    ensures Placed(Apply(s, step)) && InPool(Apply(s, step)) == InPool(s)
  {
    var s' := Apply(s, step);
    assert step.w == TheWorker(s);
    assert InPool(s') == InPool(s);
    OneWorkerPlaced(s, step.w, s'.workers[step.w]);
  }

  lemma HandsBack(s: Flow, w: nat, i: nat)
    requires Placed(s) && w < |s.workers| && s.workers[w].phase.Holding? && i < |s.io|
    ensures var s1 := SetWorker(s, w, s.workers[w].(phase := Returning(i)));
            Placed(s1) && InPool(s) == [s.workers[w].phase.msg] + InPool(s1)
  {
    var s1 := SetWorker(s, w, s.workers[w].(phase := Returning(i)));
    assert w == TheWorker(s);
    assert InPool(s) == [s.workers[w].phase.msg] + InPool(s1);
    OneWorkerPlaced(s, w, s1.workers[w]);
  }

  // What the worker hands back goes to the home of its connection.
  lemma ReturnPlaced(s: Flow, w: nat)
    requires Placed(s) && Ready(s, Return(w))
    ensures Placed(Apply(s, Return(w)))
    ensures s.ioThread[s.workers[w].phase.msg.conn] == Home(s.workers[w].phase.msg.conn, |s.io|)
    ensures InPool(s) == [s.workers[w].phase.msg] + InPool(Apply(s, Return(w)))
  {
    var m := s.workers[w].phase.msg;
    var i := s.ioThread[m.conn];
    HandsBack(s, w, i);
    assert m in InPool(s);
    EnqueuePlaced(SetWorker(s, w, s.workers[w].(phase := Returning(i))), i, m);
  }

  // A change of phase that leaves the worker's hand empty.
  lemma WorkerResumes(s: Flow, w: nat)
    requires Placed(s) && w < |s.workers| && s.workers[w].phase.Returning?
    ensures Placed(SetWorker(s, w, s.workers[w].(phase := Checking)))
    ensures InPool(SetWorker(s, w, s.workers[w].(phase := Checking))) == InPool(s)
  {
    var s1 := SetWorker(s, w, s.workers[w].(phase := Checking));
    assert w == TheWorker(s);
    assert InPool(s1) == InPool(s);
    OneWorkerPlaced(s, w, s1.workers[w]);
  }

  lemma ReturnSignalPlaced(s: Flow, w: nat)
    requires Placed(s) && Ready(s, ReturnSignal(w))
    ensures Placed(Apply(s, ReturnSignal(w))) && InPool(Apply(s, ReturnSignal(w))) == InPool(s)
  {
    WorkerResumes(s, w);
    var i := s.workers[w].phase.to;
    CountersPlaced(SetWorker(s, w, s.workers[w].(phase := Checking)), i, Apply(s, ReturnSignal(w)).io[i]);
  }

  // The steps that touch the pool.
  predicate PoolSide(step: Step) {
    step.PushTask? || step.TaskSignal? || step.Return? || step.ReturnSignal?
    || step.WakeWorker? || step.CheckTasks? || step.PopTask?
  }

  // The steps that move connections.
  predicate ConnSide(step: Step) {
    step.Accept? || step.Hand? || step.HandSignal? || step.WakeConns? || step.CheckConns?
    || step.PopConn? || step.Adopt?
  }

  // What a pool step may do to an io thread: it comes to hand over a task or finishes doing so,
  // or gets a message or its signal.
  predicate PoolTouches(t: IoThread, t': IoThread) {
    && t' == t.(phase := t'.phase, msgQ := t'.msgQ, msgEv := t'.msgEv)
    && (t'.phase == t.phase || (t.phase.Decoded? && t'.phase.Tasking?) || (t.phase.Tasking? && t'.phase.Polling?))
  }

  predicate PoolMoves(s: Flow, s': Flow) {
    && |s'.io| == |s.io| && |s'.workers| == |s.workers|
    && s' == s.(io := s'.io, workers := s'.workers)
    && forall i :: 0 <= i < |s.io| ==> PoolTouches(s.io[i], s'.io[i])
  }

  lemma TaskMoves(s: Flow, step: Step)
    requires Ready(s, step) && (step.PushTask? || step.TaskSignal?)
    ensures PoolMoves(s, Apply(s, step))
  {}

  lemma ReturnMoves(s: Flow, step: Step)
    requires Ready(s, step) && (step.Return? || step.ReturnSignal?)
    ensures PoolMoves(s, Apply(s, step))
  {}

  lemma PoolStepMoves(s: Flow, step: Step)
    requires Ready(s, step) && PoolSide(step)
    ensures PoolMoves(s, Apply(s, step))
  {
    if step.PushTask? || step.TaskSignal? {
      TaskMoves(s, step);
    } else if step.Return? || step.ReturnSignal? {
      ReturnMoves(s, step);
    }
  }

  // A thread at work on the hand-over of connections.
  predicate HandlesConns(p: IoPhase) {
    p.Accepted? || p.Handing? || p.Adopting? || p.ConnCheck? || p.ConnPop?
  }

  predicate Aside(t: IoThread, t': IoThread) {
    && t'.adopted == t.adopted && t'.connQ == t.connQ && t'.connEv == t.connEv
    && (t'.phase == t.phase || (!HandlesConns(t.phase) && !HandlesConns(t'.phase)))
  }

  // The hand-over of connections is left alone.
  predicate ConnsAside(s: Flow, s': Flow) {
    && |s'.io| == |s.io| && |s'.workers| == |s.workers|
    && s'.accepted == s.accepted && s'.ioThread == s.ioThread && s'.refs.Keys == s.refs.Keys
    && forall i :: 0 <= i < |s.io| ==> Aside(s.io[i], s'.io[i])
  }

  lemma PoolMovesAside(s: Flow, s': Flow)
    requires PoolMoves(s, s')
    ensures ConnsAside(s, s')
  {
    forall i | 0 <= i < |s.io| ensures Aside(s.io[i], s'.io[i]) {
      assert PoolTouches(s.io[i], s'.io[i]);
    }
  }

  lemma ProcessedThreads(s: Flow, m: Msg, fails: bool)
    requires m.conn in s.refs
    ensures var s' := Processed(s, m, fails);
            && s'.io == s.io && s'.workers == s.workers && s'.ioThread == s.ioThread
            && s'.accepted == s.accepted && s'.refs.Keys == s.refs.Keys
            && s'.created == s.created && s'.entered == s.entered && s'.testing == s.testing && s'.taken == s.taken
  {}

  lemma DecodeAside(s: Flow, i: nat, m: Msg, fails: bool)
    requires Ready(s, Decode(i, m, fails))
    ensures ConnsAside(s, Apply(s, Decode(i, m, fails)))
  {
    ProcessedThreads(Entered(Created(s, m), m), m, fails);
  }

  lemma FinishAside(s: Flow, i: nat, fails: bool)
    requires Ready(s, Finish(i, fails))
    ensures ConnsAside(s, Apply(s, Finish(i, fails)))
  {
    ProcessedThreads(SetPhase(s, i, MsgCheck), s.io[i].phase.msg, fails);
  }

  lemma UserPushAside(s: Flow, m: Msg)
    requires Ready(s, UserPush(m))
    ensures ConnsAside(s, Apply(s, UserPush(m)))
  {}

  lemma CloseAside(s: Flow, i: nat, c: Client)
    requires Ready(s, Close(i, c))
    ensures ConnsAside(s, Apply(s, Close(i, c)))
  {}

  lemma MessageAside(s: Flow, step: Step)
    requires Ready(s, step) && (step.WakeMsgs? || step.CheckMsgs? || step.PopMsg? || step.UserSignal?)
    ensures ConnsAside(s, Apply(s, step))
  {}

  lemma StepAside(s: Flow, step: Step)
    requires Ready(s, step) && !ConnSide(step)
    ensures ConnsAside(s, Apply(s, step))
  {
    if PoolSide(step) {
      PoolStepMoves(s, step);
      PoolMovesAside(s, Apply(s, step));
    } else if UserSide(step) {
      UserSideMoves(s, step);
    } else if step.Decode? {
      DecodeAside(s, step.i, step.m, step.fails);
    } else if step.Finish? {
      FinishAside(s, step.i, step.fails);
    } else if step.UserPush? {
      UserPushAside(s, step.m);
    } else if step.Close? {
      CloseAside(s, step.i, step.c);
    } else {
      MessageAside(s, step);
    }
  }

  lemma ConnGrown(s: Flow, step: Step)
    requires Ready(s, step) && ConnSide(step)
    ensures Grown(s, Apply(s, step))
  {}

  lemma StepGrown(s: Flow, step: Step)
    requires Ready(s, step)
    ensures Grown(s, Apply(s, step))
  {
    if ConnSide(step) {
      ConnGrown(s, step);
    } else {
      StepAside(s, step);
    }
  }

  lemma PoolStepPlaced(s: Flow, step: Step)
    requires Placed(s) && Ready(s, step) && PoolSide(step)
    ensures Placed(Apply(s, step))
  {
    match step
    case PushTask(i, address) => PushTaskPlaced(s, i, address);
    case TaskSignal(i) => TaskSignalPlaced(s, i);
    case Return(w) => ReturnPlaced(s, w);
    case ReturnSignal(w) => ReturnSignalPlaced(s, w);
    case PopTask(w) => PopTaskPlaced(s, w);
    case _ => WorkerStepPlaced(s, step);
  }

  lemma ConnStepPlaced(s: Flow, step: Step)
    requires Placed(s) && Ready(s, step) && ConnSide(step)
    ensures Placed(Apply(s, step))
  {
    match step
    case Accept(c) => AcceptPlaced(s, c);
    case Hand => HandPlaced(s);
    case HandSignal => HandSignalPlaced(s);
    case PopConn(i) => PopConnPlaced(s, i);
    case Adopt(i) => AdoptPlaced(s, i);
    case _ => LoopStepPlaced(s, step);
  }

  lemma MessageStepPlaced(s: Flow, step: Step)
    requires Placed(s) && Ready(s, step) && !ConnSide(step) && !PoolSide(step) && !UserSide(step)
    ensures Placed(Apply(s, step))
  {
    match step
    case Decode(i, m, fails) => DecodePlaced(s, i, m, fails);
    case Close(i, c) => ClosePlaced(s, i, c);
    case PopMsg(i) => PopMsgPlaced(s, i);
    case Finish(i, fails) => FinishPlaced(s, i, fails);
    case UserPush(m) => UserPushPlaced(s, m);
    case UserSignal(m, i) => UserSignalPlaced(s, m, i);
    case _ => LoopStepPlaced(s, step);
  }

  lemma StepPlaced(s: Flow, step: Step)
    requires Placed(s) && Ready(s, step)
    ensures Placed(Apply(s, step))
  {
    if ConnSide(step) {
      ConnStepPlaced(s, step);
    } else if PoolSide(step) {
      PoolStepPlaced(s, step);
    } else if UserSide(step) {
      UserSidePlaced(s, step);
    } else {
      MessageStepPlaced(s, step);
    }
  }
}
