/** No lost wakeup between the threads of a service (src/xv_service.c, src/xv_async.c): the two
    queues of an io thread and the queue of a worker. */
module FlowWakeups {
  import opened ServiceFlow

  // ------------------------------------------------------------------------------------
  // No lost wakeup, for all three kinds of queue
  // ------------------------------------------------------------------------------------

  ghost predicate ReturningTo(s: Flow, i: nat) { exists w :: WorkerAt(s, w, Returning(i)) }

  ghost predicate TaskingTo(s: Flow, w: nat) { exists i :: At(s, i, Tasking(w)) }

  ghost predicate ConnWake(s: Flow, i: nat) {
    i < |s.io| &&
    var t := s.io[i];
    && (t.connQ != [] ==> t.connEv > 0 || At(s, 0, Handing(i))
                          || t.phase.ConnCheck? || t.phase.ConnPop? || t.phase.Adopting?)
    && (t.phase.ConnPop? ==> t.connQ != [])
  }

  ghost predicate MsgWake(s: Flow, i: nat) {
    i < |s.io| &&
    var t := s.io[i];
    && (t.msgQ != [] ==> t.msgEv > 0 || t.users != {} || ReturningTo(s, i)
                         || t.phase.MsgCheck? || t.phase.MsgPop? || t.phase.Returned?)
    && (t.phase.MsgPop? ==> t.msgQ != [])
  }

  ghost predicate TaskWake(s: Flow, w: nat) {
    w < |s.workers| &&
    var t := s.workers[w];
    && (t.queue != [] ==> t.ev > 0 || TaskingTo(s, w) || !t.phase.Asleep?)
    && (t.phase.Popping? ==> t.queue != [])
  }

  ghost predicate Awake(s: Flow) {
    && (forall i :: 0 <= i < |s.io| ==> ConnWake(s, i) && MsgWake(s, i))
    && (forall w :: 0 <= w < |s.workers| ==> TaskWake(s, w))
  }

  // A thread between push and signal stays there until it has signalled.
  lemma ReturningPersists(s: Flow, step: Step, i: nat)
    requires Ready(s, step) && i < |s.io| && ReturningTo(s, i)
    ensures ReturningTo(Apply(s, step), i) || Apply(s, step).io[i].msgEv > 0
  {
    var w :| WorkerAt(s, w, Returning(i));
    if step != ReturnSignal(w) {
      assert WorkerAt(Apply(s, step), w, Returning(i));
    }
  }

  lemma ConnTasking(s: Flow, step: Step, w: nat, i: nat)
    requires Ready(s, step) && At(s, i, Tasking(w)) && ConnSide(step)
    ensures At(Apply(s, step), i, Tasking(w))
  {}

  lemma PoolTasking(s: Flow, step: Step, w: nat, i: nat)
    requires Ready(s, step) && At(s, i, Tasking(w)) && PoolSide(step) && step != TaskSignal(i)
    ensures At(Apply(s, step), i, Tasking(w))
  {}

  lemma OtherTasking(s: Flow, step: Step, w: nat, i: nat)
    requires Ready(s, step) && At(s, i, Tasking(w)) && !ConnSide(step) && !PoolSide(step)
    ensures At(Apply(s, step), i, Tasking(w))
  {
    if UserSide(step) {
      UserSideMoves(s, step);
    } else if step.Decode? {
      ProcessedThreads(Entered(Created(s, step.m), step.m), step.m, step.fails);
    } else if step.Finish? {
      ProcessedThreads(SetPhase(s, step.i, MsgCheck), s.io[step.i].phase.msg, step.fails);
    }
  }

  lemma TaskingPersists(s: Flow, step: Step, w: nat)
    requires Ready(s, step) && w < |s.workers| && TaskingTo(s, w)
    ensures TaskingTo(Apply(s, step), w) || Apply(s, step).workers[w].ev > 0
  {
    var i :| At(s, i, Tasking(w));
    if ConnSide(step) {
      ConnTasking(s, step, w, i);
    } else if !PoolSide(step) {
      OtherTasking(s, step, w, i);
    } else if step != TaskSignal(i) {
      PoolTasking(s, step, w, i);
    }
  }

  lemma LeaderConnWake(s: Flow, step: Step, i: nat)
    requires Ready(s, step) && ConnWake(s, i) && (step.Accept? || step.Hand? || step.HandSignal?)
    ensures ConnWake(Apply(s, step), i)
  {}

  lemma ConnSideWake(s: Flow, step: Step, i: nat)
    requires Ready(s, step) && ConnWake(s, i) && ConnSide(step)
    ensures ConnWake(Apply(s, step), i)
  {
    if step.Accept? || step.Hand? || step.HandSignal? {
      LeaderConnWake(s, step, i);
    }
  }

  lemma AsideConnWake(s: Flow, s': Flow, i: nat)
    requires ConnWake(s, i) && ConnsAside(s, s')
    ensures ConnWake(s', i)
  {
    assert Aside(s.io[i], s'.io[i]) && Aside(s.io[0], s'.io[0]);
  }

  lemma StepConnWake(s: Flow, step: Step, i: nat)
    requires Ready(s, step) && ConnWake(s, i)
    ensures ConnWake(Apply(s, step), i)
  {
    if ConnSide(step) {
      ConnSideWake(s, step, i);
    } else {
      StepAside(s, step);
      AsideConnWake(s, Apply(s, step), i);
    }
  }

  // The message queue grows only under a sender that has yet to signal.
  ghost predicate MsgQueueMoves(s: Flow, s': Flow, i: nat)
    requires i < |s.io| && i < |s'.io|
  {
    var t, t' := s.io[i], s'.io[i];
    && (t'.msgQ == t.msgQ || t'.users != {} || ReturningTo(s', i) || t'.phase.Returned?)
    && (t.users != {} ==> t'.users != {} || t'.msgEv > 0)
    && (t.msgEv > 0 ==> t'.msgEv > 0 || t'.phase.MsgCheck?)
    && (t.phase.MsgCheck? || t.phase.MsgPop? || t.phase.Returned? ==>
          || t'.phase.MsgCheck? || t'.phase.MsgPop? || t'.phase.Returned?
          || (t'.phase.Polling? && t'.msgQ == t.msgQ == []))
    && (t'.phase.MsgPop? ==> t'.msgQ != [] || (t.phase.MsgPop? && t.msgQ == []))
  }

  lemma PoolSideMsgQueue(s: Flow, step: Step, i: nat)
    requires Ready(s, step) && PoolSide(step) && i < |s.io|
    ensures MsgQueueMoves(s, Apply(s, step), i)
  {
    if step.Return? {
      assert WorkerAt(Apply(s, step), step.w, Returning(s.ioThread[s.workers[step.w].phase.msg.conn]));
    }
  }

  lemma ConnSideMsgQueue(s: Flow, step: Step, i: nat)
    requires Ready(s, step) && ConnSide(step) && i < |s.io|
    ensures MsgQueueMoves(s, Apply(s, step), i)
  {
    var t, t' := s.io[i], Apply(s, step).io[i];
    assert t'.msgQ == t.msgQ && t'.users == t.users && t'.msgEv == t.msgEv;
  }

  lemma MsgSideMsgQueue(s: Flow, step: Step, i: nat)
    requires Ready(s, step) && !PoolSide(step) && !ConnSide(step) && !UserSide(step) && i < |s.io|
    ensures MsgQueueMoves(s, Apply(s, step), i)
  {
    if step.UserPush? {
      assert step.m in Apply(s, step).io[s.ioThread[step.m.conn]].users;
    }
  }

  lemma StepMsgQueue(s: Flow, step: Step, i: nat)
    requires Ready(s, step) && i < |s.io|
    ensures MsgQueueMoves(s, Apply(s, step), i)
  {
    if UserSide(step) {
      UserSideMoves(s, step);
    } else if PoolSide(step) {
      PoolSideMsgQueue(s, step, i);
    } else if ConnSide(step) {
      ConnSideMsgQueue(s, step, i);
    } else {
      MsgSideMsgQueue(s, step, i);
    }
  }

  lemma MovesMsgWake(s: Flow, s': Flow, i: nat)
    requires MsgWake(s, i) && i < |s'.io| && MsgQueueMoves(s, s', i)
    requires ReturningTo(s, i) ==> ReturningTo(s', i) || s'.io[i].msgEv > 0
    ensures MsgWake(s', i)
  {}

  lemma StepMsgWake(s: Flow, step: Step, i: nat)
    requires Ready(s, step) && MsgWake(s, i)
    ensures MsgWake(Apply(s, step), i)
  {
    StepMsgQueue(s, step, i);
    if ReturningTo(s, i) {
      ReturningPersists(s, step, i);
    }
    MovesMsgWake(s, Apply(s, step), i);
  }

  lemma StepTaskWake(s: Flow, step: Step, w: nat)
    requires Ready(s, step) && TaskWake(s, w)
    ensures TaskWake(Apply(s, step), w)
  {
    var s' := Apply(s, step);
    if step.PushTask? {
      assert At(s', step.i, Tasking(WorkerOf(step.address, |s.workers|)));
    }
    if TaskingTo(s, w) {
      TaskingPersists(s, step, w);
    }
  }

  lemma StepAwake(s: Flow, step: Step)
    requires Ready(s, step) && Awake(s)
    ensures Awake(Apply(s, step))
  {
    StepGrown(s, step);
    forall i | 0 <= i < |s.io| ensures ConnWake(Apply(s, step), i) && MsgWake(Apply(s, step), i) {
      StepConnWake(s, step, i);
      StepMsgWake(s, step, i);
    }
    forall w | 0 <= w < |s.workers| ensures TaskWake(Apply(s, step), w) {
      StepTaskWake(s, step, w);
    }
  }
}
