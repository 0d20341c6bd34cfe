/** Conservation and order of the messages of a service. */
module FlowOrder {
  import opened ServiceFlow

  // ------------------------------------------------------------------------------------
  // Conservation and order
  // ------------------------------------------------------------------------------------

  // The messages of one connection and one origin.
  ghost function Of(ms: seq<Msg>, c: Client, request: bool): seq<Msg> {
    if ms == [] then []
    else
      var m := ms[|ms| - 1];
      Of(ms[..|ms| - 1], c, request) + (if m.conn == c && m.request == request then [m] else [])
  }

  lemma {:induction false} OfConcat(a: seq<Msg>, b: seq<Msg>, c: Client, request: bool)
    ensures Of(a + b, c, request) == Of(a, c, request) + Of(b, c, request)
    decreases |b|
  {
    if b == [] {
      assert a + b == a;
    } else {
      assert (a + b)[..|a + b| - 1] == a + b[..|b| - 1];
      OfConcat(a, b[..|b| - 1], c, request);
    }
  }

  lemma {:induction false} OfNone(ms: seq<Msg>, c: Client, request: bool)
    requires forall m :: m in ms ==> m.conn != c || m.request != request
    ensures Of(ms, c, request) == []
    decreases |ms|
  {
    if ms != [] {
      OfNone(ms[..|ms| - 1], c, request);
    }
  }

  // A message of another connection or origin may come and go anywhere.
  lemma OfIgnores(a: seq<Msg>, x: seq<Msg>, b: seq<Msg>, c: Client, request: bool)
    requires forall m :: m in x ==> m.conn != c || m.request != request
    ensures Of(a + x + b, c, request) == Of(a + b, c, request)
  {
    OfConcat(a + x, b, c, request);
    OfConcat(a, x, c, request);
    OfConcat(a, b, c, request);
    OfNone(x, c, request);
  }

  lemma OfInsert(a: seq<Msg>, m: Msg, b: seq<Msg>, c: Client, request: bool)
    requires Of(b, c, request) == []
    ensures Of(a + [m] + b, c, request) == Of(a + b, c, request) + Of([m], c, request)
  {
    OfConcat(a + [m], b, c, request);
    OfConcat(a, [m], c, request);
    OfConcat(a, b, c, request);
  }

  // For one connection and origin: all messages that ever entered are the finished ones followed by
  // the ones in its thread's pipeline.
  ghost predicate Flows(s: Flow, c: Client, request: bool) {
    s.io != [] &&
    Of(s.entered, c, request) == Of(s.finished, c, request) + Of(Pipeline(s, Home(c, |s.io|)), c, request)
  }

  lemma Joined(entered: seq<Msg>, finished: seq<Msg>, pipeline: seq<Msg>, m: seq<Msg>)
    requires entered == finished + pipeline
    ensures entered + m == finished + (pipeline + m)
  {}

  lemma Moved(entered: seq<Msg>, finished: seq<Msg>, m: seq<Msg>, rest: seq<Msg>)
    requires entered == finished + (m + rest)
    ensures entered == (finished + m) + rest
  {}

  lemma JoinedFlows(s: Flow, s': Flow, m: Msg, c: Client, request: bool)
    requires |s'.io| == |s.io| && Flows(s, c, request)
    requires s'.entered == s.entered + [m] && s'.finished == s.finished
    requires Of(Pipeline(s', Home(c, |s.io|)), c, request)
          == Of(Pipeline(s, Home(c, |s.io|)), c, request) + Of([m], c, request)
    ensures Flows(s', c, request)
  {
    OfConcat(s.entered, [m], c, request);
    Joined(Of(s.entered, c, request), Of(s.finished, c, request),
           Of(Pipeline(s, Home(c, |s.io|)), c, request), Of([m], c, request));
  }

  lemma Leaves(before: seq<Msg>, m: Msg, after: seq<Msg>, c: Client, request: bool)
    requires before == [m] + after || (before == [] + after && m.conn != c)
    ensures Of(before, c, request) == Of([m], c, request) + Of(after, c, request)
  {
    if before == [m] + after {
      OfConcat([m], after, c, request);
    } else {
      assert before == after;
      OfNone([m], c, request);
    }
  }

  lemma MovedFlows(s: Flow, s': Flow, m: Msg, c: Client, request: bool)
    requires |s'.io| == |s.io| && Flows(s, c, request)
    requires s'.entered == s.entered && s'.finished == s.finished + [m]
    requires var k := Home(c, |s.io|);
             Pipeline(s, k) == [m] + Pipeline(s', k) || (Pipeline(s, k) == [] + Pipeline(s', k) && m.conn != c)
    ensures Flows(s', c, request)
  {
    var k := Home(c, |s.io|);
    OfConcat(s.finished, [m], c, request);
    Leaves(Pipeline(s, k), m, Pipeline(s', k), c, request);
    Moved(Of(s.entered, c, request), Of(s.finished, c, request), Of([m], c, request), Of(Pipeline(s', k), c, request));
  }

  lemma Appended(before: seq<Msg>, m: Msg, after: seq<Msg>, c: Client, request: bool)
    requires after == before + [m] || (after == before && m.conn != c)
    ensures Of(after, c, request) == Of(before, c, request) + Of([m], c, request)
  {
    if after == before + [m] {
      OfConcat(before, [m], c, request);
    } else {
      OfNone([m], c, request);
    }
  }

  lemma SamePipeline(s: Flow, s': Flow, c: Client, request: bool)
    requires |s'.io| == |s.io| && Flows(s, c, request)
    requires s'.entered == s.entered && s'.finished == s.finished
    requires Of(Pipeline(s', Home(c, |s.io|)), c, request) == Of(Pipeline(s, Home(c, |s.io|)), c, request)
    ensures Flows(s', c, request)
  {}

  // Steps that move no message.
  lemma ConnSidePipeline(s: Flow, step: Step, k: nat)
    requires Ready(s, step) && ConnSide(step) && k < |s.io|
    ensures Pipeline(Apply(s, step), k) == Pipeline(s, k)
  {
    var s' := Apply(s, step);
    assert s'.io[k].msgQ == s.io[k].msgQ && s'.workers == s.workers;
    assert HeldReturned(s'.io[k].phase) == HeldReturned(s.io[k].phase);
    assert HeldDecoded(s'.io[k].phase) == HeldDecoded(s.io[k].phase);
  }

  lemma LoopStepPipeline(s: Flow, step: Step, k: nat)
    requires Ready(s, step) && (step.Close? || step.WakeMsgs? || step.CheckMsgs? || step.UserSignal?) && k < |s.io|
    ensures Pipeline(Apply(s, step), k) == Pipeline(s, k)
  {
    var s' := Apply(s, step);
    assert s'.io[k].msgQ == s.io[k].msgQ && s'.workers == s.workers;
    assert HeldReturned(s'.io[k].phase) == HeldReturned(s.io[k].phase);
    assert HeldDecoded(s'.io[k].phase) == HeldDecoded(s.io[k].phase);
  }

  predicate WorkerStep(step: Step) {
    step.TaskSignal? || step.WakeWorker? || step.CheckTasks? || step.PopTask? || step.ReturnSignal?
  }

  lemma WorkerStepPipeline(s: Flow, step: Step, k: nat)
    requires Placed(s) && Ready(s, step) && WorkerStep(step) && k < |s.io|
    ensures Pipeline(Apply(s, step), k) == Pipeline(s, k)
  {
    var s' := Apply(s, step);
    if step.TaskSignal? {
      TaskSignalPlaced(s, step.i);
    } else if step.ReturnSignal? {
      ReturnSignalPlaced(s, step.w);
    } else if step.PopTask? {
      PopTaskPlaced(s, step.w);
    } else {
      WorkerStepPlaced(s, step);
    }
    assert s'.io[k].msgQ == s.io[k].msgQ;
    assert HeldReturned(s'.io[k].phase) == HeldReturned(s.io[k].phase);
    assert HeldDecoded(s'.io[k].phase) == HeldDecoded(s.io[k].phase);
  }

  lemma PopMsgPipeline(s: Flow, i: nat, k: nat)
    requires Ready(s, PopMsg(i)) && k < |s.io|
    ensures Pipeline(Apply(s, PopMsg(i)), k) == Pipeline(s, k)
  {
    var q := s.io[i].msgQ;
    assert q == [q[0]] + q[1..];
    assert Front(Apply(s, PopMsg(i)), k) == Front(s, k);
  }

  // Without a pool nothing in a pipeline is a request.
  lemma NoRequests(s: Flow, k: nat)
    requires Placed(s) && s.workers == [] && k < |s.io|
    ensures forall m :: m in Pipeline(s, k) ==> !m.request
  {
    assert IoOk(s, k);
  }

  lemma NoRequestsOf(s: Flow, k: nat, m: Msg, c: Client, request: bool)
    requires Placed(s) && s.workers == [] && k < |s.io| && m.request
    ensures Of(Pipeline(s, k), c, request) == [] || Of([m], c, request) == []
  {
    if request {
      NoRequests(s, k);
      OfNone(Pipeline(s, k), c, request);
    } else {
      OfNone([m], c, request);
    }
  }

  lemma ProcessedHistory(s: Flow, m: Msg, fails: bool)
    requires m.conn in s.refs
    ensures var s' := Processed(s, m, fails);
            s'.entered == s.entered && s'.finished == s.finished + [m] && s'.io == s.io && s'.workers == s.workers
  {}

  lemma SyncDecodeShape(s: Flow, i: nat, m: Msg, fails: bool)
    requires Ready(s, Decode(i, m, fails)) && s.workers == []
    ensures var s' := Apply(s, Decode(i, m, fails));
            s'.entered == s.entered + [m] && s'.finished == s.finished + [m] && s'.io == s.io && s'.workers == []
  {
    ProcessedHistory(Entered(Created(s, m), m), m, fails);
  }

  lemma SyncJoined(entered: seq<Msg>, finished: seq<Msg>, pipeline: seq<Msg>, m: seq<Msg>)
    requires entered == finished + pipeline && (pipeline == [] || m == [])
    ensures entered + m == (finished + m) + pipeline
  {}

  lemma SyncDecodeFlows(s: Flow, i: nat, m: Msg, fails: bool, c: Client, request: bool)
    requires Placed(s) && Ready(s, Decode(i, m, fails)) && s.workers == [] && Flows(s, c, request)
    ensures Flows(Apply(s, Decode(i, m, fails)), c, request)
  {
    var k := Home(c, |s.io|);
    var s' := Apply(s, Decode(i, m, fails));
    SyncDecodeShape(s, i, m, fails);
    assert Pipeline(s', k) == Pipeline(s, k);
    OfConcat(s.entered, [m], c, request);
    OfConcat(s.finished, [m], c, request);
    NoRequestsOf(s, k, m, c, request);
    SyncJoined(Of(s.entered, c, request), Of(s.finished, c, request),
               Of(Pipeline(s, k), c, request), Of([m], c, request));
  }

  lemma DecodePipeline(s: Flow, i: nat, m: Msg, fails: bool, k: nat)
    requires Ready(s, Decode(i, m, fails)) && s.workers != [] && k < |s.io|
    ensures Pipeline(Apply(s, Decode(i, m, fails)), k) == if k == i then Pipeline(s, k) + [m] else Pipeline(s, k)
  {
    var s' := Apply(s, Decode(i, m, fails));
    assert Front(s', k) == Front(s, k) && InPool(s') == InPool(s);
  }

  lemma PoolDecodeMoves(s: Flow, i: nat, m: Msg, fails: bool, c: Client)
    requires Placed(s) && Ready(s, Decode(i, m, fails)) && s.workers != []
    ensures var k, s' := Home(c, |s.io|), Apply(s, Decode(i, m, fails));
            && |s'.io| == |s.io| && s'.entered == s.entered + [m] && s'.finished == s.finished
            && (Pipeline(s', k) == Pipeline(s, k) + [m] || (Pipeline(s', k) == Pipeline(s, k) && m.conn != c))
  {
    assert IoOk(s, i);
    DecodePipeline(s, i, m, fails, Home(c, |s.io|));
  }

  lemma PoolDecodeFlows(s: Flow, i: nat, m: Msg, fails: bool, c: Client, request: bool)
    requires Placed(s) && Ready(s, Decode(i, m, fails)) && s.workers != [] && Flows(s, c, request)
    ensures Flows(Apply(s, Decode(i, m, fails)), c, request)
  {
    var k, s' := Home(c, |s.io|), Apply(s, Decode(i, m, fails));
    PoolDecodeMoves(s, i, m, fails, c);
    Appended(Pipeline(s, k), m, Pipeline(s', k), c, request);
    JoinedFlows(s, s', m, c, request);
  }

  lemma DecodeFlows(s: Flow, i: nat, m: Msg, fails: bool, c: Client, request: bool)
    requires Placed(s) && Ready(s, Decode(i, m, fails)) && Flows(s, c, request)
    ensures Flows(Apply(s, Decode(i, m, fails)), c, request)
  {
    if s.workers == [] {
      SyncDecodeFlows(s, i, m, fails, c, request);
    } else {
      PoolDecodeFlows(s, i, m, fails, c, request);
    }
  }

  lemma PushTaskPipeline(s: Flow, i: nat, address: nat, k: nat)
    requires Ready(s, PushTask(i, address)) && k < |s.io|
    ensures var s' := Apply(s, PushTask(i, address));
            var m := s.io[i].phase.msg;
            if k == i then Pipeline(s', k) == Pipeline(s, k)
            else Pipeline(s', k) == (Front(s, k) + InPool(s)) + [m] + HeldDecoded(s.io[k].phase)
                 && Pipeline(s, k) == (Front(s, k) + InPool(s)) + HeldDecoded(s.io[k].phase)
  {
    PushTaskPool(s, i, address);
    assert Front(Apply(s, PushTask(i, address)), k) == Front(s, k);
  }

  lemma PushTaskFlows(s: Flow, i: nat, address: nat, c: Client, request: bool)
    requires Placed(s) && Ready(s, PushTask(i, address)) && Flows(s, c, request)
    ensures Flows(Apply(s, PushTask(i, address)), c, request)
  {
    var k := Home(c, |s.io|);
    assert IoOk(s, i);
    PushTaskPipeline(s, i, address, k);
    if k != i {
      OfIgnores(Front(s, k) + InPool(s), [s.io[i].phase.msg], HeldDecoded(s.io[k].phase), c, request);
    }
    SamePipeline(s, Apply(s, PushTask(i, address)), c, request);
  }

  lemma ReturnFront(s: Flow, w: nat, k: nat)
    requires Ready(s, Return(w)) && k < |s.io|
    ensures var m := s.workers[w].phase.msg;
            && Front(Apply(s, Return(w)), k) == Front(s, k) + (if k == s.ioThread[m.conn] then [m] else [])
            && HeldDecoded(Apply(s, Return(w)).io[k].phase) == HeldDecoded(s.io[k].phase)
  {}

  lemma Regroup(front: seq<Msg>, m: seq<Msg>, pool: seq<Msg>, decoded: seq<Msg>)
    ensures front + ((m + pool) + decoded) == front + m + (pool + decoded)
  {}

  lemma ReturnPipeline(s: Flow, w: nat, k: nat)
    requires Placed(s) && Ready(s, Return(w)) && k < |s.io|
    ensures var s' := Apply(s, Return(w));
            var m := s.workers[w].phase.msg;
            && Pipeline(s, k) == Front(s, k) + [m] + Back(s', k)
            && Pipeline(s', k) == if k == Home(m.conn, |s.io|) then Front(s, k) + [m] + Back(s', k)
                                  else Front(s, k) + Back(s', k)
  {
    ReturnPlaced(s, w);
    ReturnFront(s, w, k);
    Regroup(Front(s, k), [s.workers[w].phase.msg], InPool(Apply(s, Return(w))), HeldDecoded(s.io[k].phase));
  }

  lemma ReturnFlows(s: Flow, w: nat, c: Client, request: bool)
    requires Placed(s) && Ready(s, Return(w)) && Flows(s, c, request)
    ensures Flows(Apply(s, Return(w)), c, request)
  {
    var s' := Apply(s, Return(w));
    var k := Home(c, |s.io|);
    var m := s.workers[w].phase.msg;
    ReturnPipeline(s, w, k);
    if k != Home(m.conn, |s.io|) {
      OfIgnores(Front(s, k), [m], Back(s', k), c, request);
    }
    SamePipeline(s, s', c, request);
  }

  lemma UserPushFront(s: Flow, m: Msg, k: nat)
    requires Ready(s, UserPush(m)) && k < |s.io|
    ensures Front(Apply(s, UserPush(m)), k) == Front(s, k) + if k == s.ioThread[m.conn] then [m] else []
  {}

  lemma UserPushBack(s: Flow, m: Msg, k: nat)
    requires Ready(s, UserPush(m)) && k < |s.io|
    ensures Back(Apply(s, UserPush(m)), k) == Back(s, k)
  {
    var s' := Apply(s, UserPush(m));
    assert s'.workers == s.workers && s'.io[k].phase == s.io[k].phase;
  }

  lemma UserPushPipeline(s: Flow, m: Msg, k: nat)
    requires Ready(s, UserPush(m)) && k < |s.io|
    ensures Pipeline(Apply(s, UserPush(m)), k)
         == if k == s.ioThread[m.conn] then Front(s, k) + [m] + Back(s, k) else Front(s, k) + Back(s, k)
  {
    UserPushFront(s, m, k);
    UserPushBack(s, m, k);
  }

  lemma BackHoldsRequests(s: Flow, k: nat)
    requires Placed(s) && k < |s.io|
    ensures forall m :: m in Back(s, k) ==> m.request
  {
    assert IoOk(s, k);
  }

  lemma OfSent(front: seq<Msg>, m: Msg, back: seq<Msg>, c: Client, request: bool)
    requires !m.request && forall x :: x in back ==> x.request
    ensures Of(front + [m] + back, c, request) == Of(front + back, c, request) + Of([m], c, request)
  {
    if request {
      OfNone([m], c, request);
      OfIgnores(front, [m], back, c, request);
    } else {
      OfNone(back, c, request);
      OfInsert(front, m, back, c, request);
    }
  }

  lemma UserPushJoins(s: Flow, m: Msg, c: Client, request: bool)
    requires Placed(s) && Ready(s, UserPush(m))
    ensures var k := Home(c, |s.io|);
            Of(Pipeline(Apply(s, UserPush(m)), k), c, request)
            == Of(Pipeline(s, k), c, request) + Of([m], c, request)
  {
    var k := Home(c, |s.io|);
    assert s.ioThread[m.conn] == Home(m.conn, |s.io|);
    UserPushPipeline(s, m, k);
    if k == s.ioThread[m.conn] {
      BackHoldsRequests(s, k);
      OfSent(Front(s, k), m, Back(s, k), c, request);
    } else {
      OfNone([m], c, request);
    }
  }

  lemma UserPushShape(s: Flow, m: Msg)
    requires Ready(s, UserPush(m))
    ensures var s' := Apply(s, UserPush(m));
            |s'.io| == |s.io| && s'.entered == s.entered + [m] && s'.finished == s.finished
  {}

  lemma UserPushFlows(s: Flow, m: Msg, c: Client, request: bool)
    requires Placed(s) && Ready(s, UserPush(m)) && Flows(s, c, request)
    ensures Flows(Apply(s, UserPush(m)), c, request)
  {
    UserPushJoins(s, m, c, request);
    UserPushShape(s, m);
    JoinedFlows(s, Apply(s, UserPush(m)), m, c, request);
  }

  lemma FinishFront(s: Flow, i: nat, fails: bool, k: nat)
    requires Ready(s, Finish(i, fails)) && k < |s.io|
    ensures Front(s, k) == (if k == i then [s.io[i].phase.msg] else []) + Front(Apply(s, Finish(i, fails)), k)
  {
    ProcessedHistory(SetPhase(s, i, MsgCheck), s.io[i].phase.msg, fails);
  }

  lemma FinishBack(s: Flow, i: nat, fails: bool, k: nat)
    requires Ready(s, Finish(i, fails)) && k < |s.io|
    ensures Back(Apply(s, Finish(i, fails)), k) == Back(s, k)
  {
    ProcessedHistory(SetPhase(s, i, MsgCheck), s.io[i].phase.msg, fails);
    var s' := Apply(s, Finish(i, fails));
    assert s'.workers == s.workers && HeldDecoded(s'.io[k].phase) == HeldDecoded(s.io[k].phase);
  }

  lemma Prepended(m: seq<Msg>, front: seq<Msg>, back: seq<Msg>)
    ensures (m + front) + back == m + (front + back)
  {}

  lemma FinishPipeline(s: Flow, i: nat, fails: bool, k: nat)
    requires Ready(s, Finish(i, fails)) && k < |s.io|
    ensures Pipeline(s, k) == (if k == i then [s.io[i].phase.msg] else []) + Pipeline(Apply(s, Finish(i, fails)), k)
  {
    FinishFront(s, i, fails, k);
    FinishBack(s, i, fails, k);
    Prepended(if k == i then [s.io[i].phase.msg] else [], Front(Apply(s, Finish(i, fails)), k), Back(s, k));
  }

  lemma FinishShape(s: Flow, i: nat, fails: bool)
    requires Ready(s, Finish(i, fails))
    ensures var s' := Apply(s, Finish(i, fails));
            |s'.io| == |s.io| && s'.entered == s.entered && s'.finished == s.finished + [s.io[i].phase.msg]
  {
    ProcessedHistory(SetPhase(s, i, MsgCheck), s.io[i].phase.msg, fails);
  }

  lemma FinishMoves(s: Flow, i: nat, fails: bool, c: Client)
    requires Placed(s) && Ready(s, Finish(i, fails))
    ensures var k, m, s' := Home(c, |s.io|), s.io[i].phase.msg, Apply(s, Finish(i, fails));
            && |s'.io| == |s.io| && s'.entered == s.entered && s'.finished == s.finished + [m]
            && (Pipeline(s, k) == [m] + Pipeline(s', k) || (Pipeline(s, k) == [] + Pipeline(s', k) && m.conn != c))
  {
    assert IoOk(s, i);
    FinishShape(s, i, fails);
    FinishPipeline(s, i, fails, Home(c, |s.io|));
  }

  lemma FinishFlows(s: Flow, i: nat, fails: bool, c: Client, request: bool)
    requires Placed(s) && Ready(s, Finish(i, fails)) && Flows(s, c, request)
    ensures Flows(Apply(s, Finish(i, fails)), c, request)
  {
    FinishMoves(s, i, fails, c);
    MovedFlows(s, Apply(s, Finish(i, fails)), s.io[i].phase.msg, c, request);
  }

  predicate MovesMessage(step: Step) {
    step.Decode? || step.PushTask? || step.Return? || step.UserPush? || step.Finish?
  }

  lemma QuietHistory(s: Flow, step: Step)
    requires Ready(s, step) && !MovesMessage(step)
    ensures Apply(s, step).entered == s.entered && Apply(s, step).finished == s.finished
  {
    if PoolSide(step) {
      PoolStepMoves(s, step);
    } else if UserSide(step) {
      UserSideMoves(s, step);
    }
  }

  lemma QuietStepFlows(s: Flow, step: Step, c: Client, request: bool)
    requires Placed(s) && Ready(s, step) && Flows(s, c, request) && !MovesMessage(step)
    ensures Flows(Apply(s, step), c, request)
  {
    var k := Home(c, |s.io|);
    StepGrown(s, step);
    QuietHistory(s, step);
    if UserSide(step) {
      UserSideMoves(s, step);
    } else if step.PopMsg? {
      PopMsgPipeline(s, step.i, k);
    } else if WorkerStep(step) {
      WorkerStepPipeline(s, step, k);
    } else if ConnSide(step) {
      ConnSidePipeline(s, step, k);
    } else {
      LoopStepPipeline(s, step, k);
    }
    SamePipeline(s, Apply(s, step), c, request);
  }

  lemma MoveFlows(s: Flow, step: Step, c: Client, request: bool)
    requires Placed(s) && Ready(s, step) && Flows(s, c, request) && MovesMessage(step)
    ensures Flows(Apply(s, step), c, request)
  {
    match step
    case Decode(i, m, fails) => DecodeFlows(s, i, m, fails, c, request);
    case PushTask(i, address) => PushTaskFlows(s, i, address, c, request);
    case Return(w) => ReturnFlows(s, w, c, request);
    case UserPush(m) => UserPushFlows(s, m, c, request);
    case Finish(i, fails) => FinishFlows(s, i, fails, c, request);
  }

  lemma StepFlows(s: Flow, step: Step, c: Client, request: bool)
    requires Placed(s) && Ready(s, step) && Flows(s, c, request)
    ensures Flows(Apply(s, step), c, request)
  {
    if MovesMessage(step) {
      MoveFlows(s, step, c, request);
    } else {
      QuietStepFlows(s, step, c, request);
    }
  }
}
