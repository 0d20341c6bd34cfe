/** Reference counts, and which closes let a freed connection be used. */
module FlowLifetime {
  import opened ServiceFlow
  import opened FlowOrder

  // ------------------------------------------------------------------------------------
  // Every message is in one place
  // ------------------------------------------------------------------------------------

  ghost predicate Distinct(ms: seq<Msg>) { forall m :: multiset(ms)[m] <= 1 }

  // What was created has entered a pipeline or is in its sender's hand, once.
  ghost predicate Places(s: Flow) {
    && Distinct(s.entered)
    && (forall m :: m in s.created <==> m in s.entered || m in s.taken)
    && (forall m :: m in s.taken ==> m !in s.entered)
    && (forall m :: m in s.testing ==> !m.request && m !in s.created)
  }

  predicate SameMessages(s: Flow, s': Flow) {
    s'.created == s.created && s'.entered == s.entered && s'.testing == s.testing && s'.taken == s.taken
  }

  lemma QuietMessages(s: Flow, step: Step)
    requires Ready(s, step) && !step.Decode? && !step.UserTest? && !step.UserTake? && !step.UserPush?
    ensures SameMessages(s, Apply(s, step))
  {
    if PoolSide(step) {
      PoolStepMoves(s, step);
    } else if step.Finish? {
      ProcessedThreads(SetPhase(s, step.i, MsgCheck), s.io[step.i].phase.msg, step.fails);
    } else if ConnSide(step) {
      ConnMessages(s, step);
    }
  }

  lemma ConnMessages(s: Flow, step: Step)
    requires Ready(s, step) && ConnSide(step)
    ensures SameMessages(s, Apply(s, step))
  {}

  lemma DecodeMessages(s: Flow, i: nat, m: Msg, fails: bool)
    requires Ready(s, Decode(i, m, fails))
    ensures SameMessages(Entered(Created(s, m), m), Apply(s, Decode(i, m, fails)))
  {
    ProcessedThreads(Entered(Created(s, m), m), m, fails);
  }

  lemma EnteredDistinct(ms: seq<Msg>, m: Msg)
    requires Distinct(ms) && m !in ms
    ensures Distinct(ms + [m])
  {}

  lemma SamePlaces(s: Flow, s': Flow)
    requires Places(s) && SameMessages(s, s')
    ensures Places(s')
  {}

  lemma DecodePlaces(s: Flow, i: nat, m: Msg, fails: bool)
    requires Places(s) && Ready(s, Decode(i, m, fails))
    ensures Places(Apply(s, Decode(i, m, fails)))
  {
    EnteredDistinct(s.entered, m);
    DecodeMessages(s, i, m, fails);
    SamePlaces(Entered(Created(s, m), m), Apply(s, Decode(i, m, fails)));
  }

  lemma TestPlaces(s: Flow, m: Msg)
    requires Places(s) && Ready(s, UserTest(m))
    ensures Places(Apply(s, UserTest(m)))
  {}

  lemma TakePlaces(s: Flow, m: Msg)
    requires Places(s) && Ready(s, UserTake(m))
    ensures Places(Apply(s, UserTake(m)))
  {}

  lemma PushPlaces(s: Flow, m: Msg)
    requires Places(s) && Ready(s, UserPush(m))
    ensures Places(Apply(s, UserPush(m)))
  {
    EnteredDistinct(s.entered, m);
  }

  lemma StepPlaces(s: Flow, step: Step)
    requires Places(s) && Ready(s, step)
    ensures Places(Apply(s, step))
  {
    if step.Decode? {
      DecodePlaces(s, step.i, step.m, step.fails);
    } else if step.UserTest? {
      TestPlaces(s, step.m);
    } else if step.UserTake? {
      TakePlaces(s, step.m);
    } else if step.UserPush? {
      PushPlaces(s, step.m);
    } else {
      QuietMessages(s, step);
      SamePlaces(s, Apply(s, step));
    }
  }

  // ------------------------------------------------------------------------------------
  // Reference counts
  // ------------------------------------------------------------------------------------

  // The messages of a set for one connection.
  function CountFor(ms: set<Msg>, c: Client): nat { |set m | m in ms && m.conn == c| }

  lemma CountAdd(ms: set<Msg>, m: Msg, c: Client)
    requires m !in ms
    ensures CountFor(ms + {m}, c) == CountFor(ms, c) + if m.conn == c then 1 else 0
  {
    var before, after := set x | x in ms && x.conn == c, set x | x in ms + {m} && x.conn == c;
    assert after == if m.conn == c then before + {m} else before;
  }

  lemma CountRemove(ms: set<Msg>, m: Msg, c: Client)
    requires m in ms
    ensures CountFor(ms, c) == CountFor(ms - {m}, c) + if m.conn == c then 1 else 0
  {
    CountAdd(ms - {m}, m, c);
    assert (ms - {m}) + {m} == ms;
  }

  // Messages created for a connection and not yet destroyed.
  ghost function Outstanding(s: Flow, c: Client): int {
    |Of(s.entered, c, true)| + |Of(s.entered, c, false)| - |Of(s.finished, c, true)| - |Of(s.finished, c, false)|
    + CountFor(s.taken, c)
  }

  // The reference count is one for the connection itself, one for each such message and one for
  // each hold of the user.
  ghost predicate Counted(s: Flow, c: Client) {
    if c in s.refs then s.refs[c] == 1 + Outstanding(s, c) + s.holds[c]
    else Outstanding(s, c) == 0 && s.holds[c] == 0
  }

  lemma OfOne(m: Msg, c: Client, request: bool)
    ensures Of([m], c, request) == if m.conn == c && m.request == request then [m] else []
  {
    assert [m][..0] == [];
  }

  lemma CountAppend(ms: seq<Msg>, m: Msg, c: Client)
    ensures |Of(ms + [m], c, true)| + |Of(ms + [m], c, false)|
         == |Of(ms, c, true)| + |Of(ms, c, false)| + if m.conn == c then 1 else 0
  {
    OfConcat(ms, [m], c, true);
    OfConcat(ms, [m], c, false);
    OfOne(m, c, true);
    OfOne(m, c, false);
  }

  predicate SameBooks(s: Flow, s': Flow) {
    && s'.entered == s.entered && s'.finished == s.finished && s'.taken == s.taken
    && s'.refs == s.refs && s'.holds == s.holds
  }

  lemma SameBooksCounted(s: Flow, s': Flow, c: Client)
    requires Counted(s, c) && SameBooks(s, s')
    ensures Counted(s', c)
  {}

  lemma CreatedCounted(s: Flow, m: Msg, c: Client)
    requires m.conn in s.refs && Counted(s, c)
    ensures Counted(Entered(Created(s, m), m), c)
  {
    CountAppend(s.entered, m, c);
  }

  lemma ProcessedBooks(s: Flow, m: Msg, fails: bool)
    requires m.conn in s.refs
    ensures SameBooks(Destroyed(s, m), Processed(s, m, fails))
  {}

  lemma ProcessedCounted(s: Flow, m: Msg, fails: bool, c: Client)
    requires m.conn in s.refs && Counted(s, c)
    ensures Counted(Processed(s, m, fails), c)
  {
    CountAppend(s.finished, m, c);
    assert Counted(Destroyed(s, m), c);
    ProcessedBooks(s, m, fails);
    SameBooksCounted(Destroyed(s, m), Processed(s, m, fails), c);
  }

  predicate Bookkeeping(step: Step) {
    step.Accept? || step.Decode? || step.Finish? || step.UserTake? || step.UserPush? || step.Hold? || step.Drop?
  }

  lemma QuietBooks(s: Flow, step: Step)
    requires Ready(s, step) && !Bookkeeping(step)
    ensures SameBooks(s, Apply(s, step))
  {
    if PoolSide(step) {
      PoolStepMoves(s, step);
    }
  }

  lemma DecodeCounted(s: Flow, i: nat, m: Msg, fails: bool, c: Client)
    requires Ready(s, Decode(i, m, fails)) && Counted(s, c)
    ensures Counted(Apply(s, Decode(i, m, fails)), c)
  {
    var s1 := Entered(Created(s, m), m);
    CreatedCounted(s, m, c);
    if s.workers == [] {
      ProcessedCounted(s1, m, fails, c);
    } else {
      SameBooksCounted(s1, Apply(s, Decode(i, m, fails)), c);
    }
  }

  lemma SendCounted(s: Flow, step: Step, c: Client)
    requires Ready(s, step) && (step.UserTake? || step.UserPush?) && Counted(s, c) && Places(s)
    ensures Counted(Apply(s, step), c)
  {
    if step.UserTake? {
      CountAdd(s.taken, step.m, c);
    } else {
      CountRemove(s.taken, step.m, c);
      CountAppend(s.entered, step.m, c);
    }
  }

  lemma FinishCounted(s: Flow, i: nat, fails: bool, c: Client)
    requires Ready(s, Finish(i, fails)) && Counted(s, c)
    ensures Counted(Apply(s, Finish(i, fails)), c)
  {
    var s1 := SetPhase(s, i, MsgCheck);
    SameBooksCounted(s, s1, c);
    ProcessedCounted(s1, s.io[i].phase.msg, fails, c);
  }

  lemma AcceptCounted(s: Flow, a: Client, c: Client)
    requires Ready(s, Accept(a)) && Counted(s, c) && a !in s.refs
    ensures Counted(Apply(s, Accept(a)), c)
  {}

  lemma HoldCounted(s: Flow, a: Client, c: Client)
    requires Ready(s, Hold(a)) && Counted(s, c)
    ensures Counted(Apply(s, Hold(a)), c)
  {
    assert Outstanding(Apply(s, Hold(a)), c) == Outstanding(s, c);
  }

  lemma DropCounted(s: Flow, a: Client, c: Client)
    requires Ready(s, Drop(a)) && Counted(s, c)
    ensures Counted(Apply(s, Drop(a)), c)
  {
    assert Outstanding(Apply(s, Drop(a)), c) == Outstanding(s, c);
  }

  lemma UserCounted(s: Flow, step: Step, c: Client)
    requires Places(s) && Ready(s, step) && Counted(s, c)
    requires step.UserTake? || step.UserPush? || step.Hold? || step.Drop?
    ensures Counted(Apply(s, step), c)
  {
    if step.Hold? {
      HoldCounted(s, step.c, c);
    } else if step.Drop? {
      DropCounted(s, step.c, c);
    } else {
      SendCounted(s, step, c);
    }
  }

  lemma BookkeepingCounted(s: Flow, step: Step, c: Client)
    requires Places(s) && Ready(s, step) && Counted(s, c) && Bookkeeping(step)
    requires step.Accept? ==> step.c !in s.refs
    ensures Counted(Apply(s, step), c)
  {
    match step
    case Accept(a) => AcceptCounted(s, a, c);
    case Decode(i, m, fails) => DecodeCounted(s, i, m, fails, c);
    case Finish(i, fails) => FinishCounted(s, i, fails, c);
    case _ => UserCounted(s, step, c);
  }

  lemma StepCounted(s: Flow, step: Step, c: Client)
    requires Placed(s) && Places(s) && Ready(s, step) && Counted(s, c)
    ensures Counted(Apply(s, step), c)
  {
    if Bookkeeping(step) {
      BookkeepingCounted(s, step, c);
    } else {
      QuietBooks(s, step);
      SameBooksCounted(s, Apply(s, step), c);
    }
  }

  // What is outstanding is in the pipeline of the connection's thread or in a sender's hand.
  lemma OutstandingIsInPipeline(s: Flow, c: Client)
    requires Flows(s, c, true) && Flows(s, c, false)
    ensures var p := Pipeline(s, Home(c, |s.io|));
            Outstanding(s, c) == |Of(p, c, true)| + |Of(p, c, false)| + CountFor(s.taken, c)
  {}

  lemma {:induction false} OfHas(ms: seq<Msg>, m: Msg)
    requires m in ms
    ensures m in Of(ms, m.conn, m.request)
    decreases |ms|
  {
    if m != ms[|ms| - 1] {
      OfHas(ms[..|ms| - 1], m);
    }
  }

  lemma PresentIsOutstanding(s: Flow, m: Msg)
    requires Flows(s, m.conn, true) && Flows(s, m.conn, false)
    requires m in Pipeline(s, Home(m.conn, |s.io|))
    ensures Outstanding(s, m.conn) >= 1
  {
    OutstandingIsInPipeline(s, m.conn);
    OfHas(Pipeline(s, Home(m.conn, |s.io|)), m);
  }

  // ------------------------------------------------------------------------------------
  // Which closes are fatal
  // ------------------------------------------------------------------------------------

  // Messages outstanding for a connection, and senders past their status test for it.
  function Left(s: Flow, c: Client): int
    requires c in s.refs
  {
    s.refs[c] - 1 - s.holds[c] + CountFor(s.testing, c)
  }

  // The step closes a connection too early: it leaves two or more messages and senders behind, or
  // one where it frees the connection at once.
  predicate ClosesEarly(s: Flow, step: Step)
    requires Ready(s, step)
  {
    match step
    case Close(i, c) => Left(s, c) >= if s.refs[c] > 1 then 2 else 1
    case Decode(i, m, fails) => s.workers == [] && fails && Left(s, m.conn) >= 2
    case Finish(i, fails) =>
      // its own message is destroyed by the step
      var c := s.io[i].phase.msg.conn;
      fails && c !in s.closed && Left(s, c) - 1 >= 2
    case _ => false
  }

  ghost predicate ClosedEarly(s: Flow, steps: seq<Step>)
    requires Legal(s, steps)
    decreases |steps|
  {
    steps != [] && (ClosesEarly(s, steps[0]) || ClosedEarly(Apply(s, steps[0]), steps[1..]))
  }

  // More messages will come back than a closed connection can take: the first one frees it.
  predicate Fatal(s: Flow, c: Client) {
    c in s.closed && c in s.refs && Left(s, c) >= if c in s.freed then 1 else 2
  }

  ghost predicate Doomed(s: Flow) { exists c :: Fatal(s, c) }

  // What the argument needs of a state and a connection.
  ghost predicate Books(s: Flow, c: Client) {
    Placed(s) && Places(s) && Flows(s, c, true) && Flows(s, c, false) && Counted(s, c)
  }

  lemma CountIsPositive(s: Flow, c: Client)
    requires Books(s, c) && c in s.refs
    ensures s.refs[c] >= 1 + s.holds[c] && Left(s, c) >= 0
  {
    OutstandingIsInPipeline(s, c);
  }

  lemma InHandIsPresent(s: Flow, i: nat)
    requires i < |s.io| && s.io[i].phase.Returned?
    ensures s.io[i].phase.msg in Pipeline(s, i)
  {
    assert HeldReturned(s.io[i].phase) == [s.io[i].phase.msg];
    assert s.io[i].phase.msg == Pipeline(s, i)[0];
  }

  lemma PresentIsCounted(s: Flow, m: Msg)
    requires Flows(s, m.conn, true) && Flows(s, m.conn, false) && Counted(s, m.conn) && m.conn in s.refs
    requires m in Pipeline(s, Home(m.conn, |s.io|))
    ensures s.refs[m.conn] >= 2 + s.holds[m.conn]
  {
    PresentIsOutstanding(s, m);
  }

  lemma InHandIsHome(s: Flow, i: nat)
    requires Placed(s) && i < |s.io| && s.io[i].phase.Returned?
    ensures Home(s.io[i].phase.msg.conn, |s.io|) == i
  {
    assert IoOk(s, i);
  }

  // A thread about to use a connection for a message proves that there is one.
  lemma FinishOutstanding(s: Flow, i: nat, fails: bool)
    requires Ready(s, Finish(i, fails)) && Books(s, s.io[i].phase.msg.conn)
    ensures s.refs[s.io[i].phase.msg.conn] >= 2 + s.holds[s.io[i].phase.msg.conn]
  {
    InHandIsHome(s, i);
    InHandIsPresent(s, i);
    PresentIsCounted(s, s.io[i].phase.msg);
  }

  lemma ReturnOutstanding(s: Flow, w: nat)
    requires Ready(s, Return(w)) && Books(s, s.workers[w].phase.msg.conn)
    ensures s.refs[s.workers[w].phase.msg.conn] >= 2 + s.holds[s.workers[w].phase.msg.conn]
  {
    var m := s.workers[w].phase.msg;
    var k := Home(m.conn, |s.io|);
    assert w == TheWorker(s);
    assert HeldBy(s.workers[w].phase) == [m];
    assert m == Pipeline(s, k)[|Front(s, k)|];
    PresentIsOutstanding(s, m);
  }

  lemma SendLeft(s: Flow, step: Step)
    requires Ready(s, step) && (step.UserTake? || step.UserPush?) && Books(s, step.m.conn)
    ensures step.m.conn in s.refs && Left(s, step.m.conn) >= 1
  {
    CountIsPositive(s, step.m.conn);
    OutstandingIsInPipeline(s, step.m.conn);
    if step.UserTake? {
      CountRemove(s.testing, step.m, step.m.conn);
    } else {
      CountRemove(s.taken, step.m, step.m.conn);
    }
  }

  // Which connection a step may close.
  predicate Closing(s: Flow, step: Step, c: Client)
    requires Ready(s, step)
  {
    match step
    case Close(_, a) => a == c
    case Decode(_, m, _) => m.conn == c
    case Finish(i, _) => s.io[i].phase.msg.conn == c
    case _ => false
  }

  predicate SameFate(s: Flow, s': Flow) {
    && s'.refs == s.refs && s'.holds == s.holds && s'.testing == s.testing
    && s'.closed == s.closed && s'.freed == s.freed
  }

  lemma SameFatal(s: Flow, s': Flow, c: Client)
    requires SameFate(s, s')
    ensures Fatal(s', c) <==> Fatal(s, c)
  {}

  lemma QuietFate(s: Flow, step: Step)
    requires Ready(s, step) && !step.Close? && !step.UserTest? && (step.UserPush? || !Bookkeeping(step))
    ensures SameFate(s, Apply(s, step))
  {
    if PoolSide(step) {
      PoolStepMoves(s, step);
    }
  }

  lemma CloseFatal(s: Flow, i: nat, a: Client, c: Client)
    requires Ready(s, Close(i, a)) && s.freed <= s.closed
    ensures Fatal(Apply(s, Close(i, a)), c) <==> Fatal(s, c) || (a == c && ClosesEarly(s, Close(i, a)))
  {
    if a == c {
      assert c !in s.freed;
    }
  }

  lemma ProcessedFatal(s: Flow, m: Msg, fails: bool, c: Client)
    requires m.conn in s.refs && s.refs[m.conn] >= 2 && m.conn !in s.freed
    ensures Fatal(Processed(s, m, fails), c)
       <==> Fatal(s, c) || (m.conn == c && fails && c !in s.closed && Left(s, c) - 1 >= 2)
  {}

  lemma CreatedFatal(s: Flow, m: Msg, c: Client)
    requires m.conn in s.refs && m.conn !in s.closed
    ensures Fatal(Entered(Created(s, m), m), c) <==> Fatal(s, c)
  {}

  lemma DecodeFatal(s: Flow, i: nat, m: Msg, fails: bool, c: Client)
    requires Ready(s, Decode(i, m, fails)) && s.freed <= s.closed && s.refs[m.conn] >= 1
    ensures Fatal(Apply(s, Decode(i, m, fails)), c)
       <==> Fatal(s, c) || (m.conn == c && ClosesEarly(s, Decode(i, m, fails)))
  {
    var s1 := Entered(Created(s, m), m);
    CreatedFatal(s, m, c);
    if s.workers == [] {
      ProcessedFatal(s1, m, fails, c);
    } else {
      SameFatal(s1, Apply(s, Decode(i, m, fails)), c);
    }
  }

  lemma FinishFatal(s: Flow, i: nat, fails: bool, c: Client)
    requires Enabled(s, Finish(i, fails)) && s.refs[s.io[i].phase.msg.conn] >= 2
    ensures Fatal(Apply(s, Finish(i, fails)), c)
       <==> Fatal(s, c) || (s.io[i].phase.msg.conn == c && ClosesEarly(s, Finish(i, fails)))
  {
    var s1 := SetPhase(s, i, MsgCheck);
    SameFatal(s, s1, c);
    ProcessedFatal(s1, s.io[i].phase.msg, fails, c);
  }

  // A sender that takes its reference changes sides: what is left stays the same.
  lemma SenderFatal(s: Flow, step: Step, c: Client)
    requires Ready(s, step) && (step.UserTest? || step.UserTake?)
    ensures Fatal(Apply(s, step), c) <==> Fatal(s, c)
  {
    if step.UserTest? {
      CountAdd(s.testing, step.m, c);
    } else {
      CountRemove(s.testing, step.m, c);
    }
  }

  lemma HoldFatal(s: Flow, step: Step, c: Client)
    requires Ready(s, step) && (step.Accept? || step.Hold? || step.Drop?)
    requires forall a :: a in s.closed ==> a in s.accepted
    ensures Fatal(Apply(s, step), c) <==> Fatal(s, c)
  {}

  lemma OpenFatal(s: Flow, step: Step, c: Client)
    requires Ready(s, step) && !step.Close? && !step.Decode? && !step.Finish? && Books(s, c)
    ensures Fatal(Apply(s, step), c) <==> Fatal(s, c)
  {
    if step.Accept? || step.Hold? || step.Drop? {
      HoldFatal(s, step, c);
    } else if step.UserTest? || step.UserTake? {
      SenderFatal(s, step, c);
    } else {
      QuietFate(s, step);
      SameFatal(s, Apply(s, step), c);
    }
  }

  lemma ClosingFatal(s: Flow, step: Step, c: Client)
    requires Enabled(s, step) && (step.Decode? || step.Finish?) && forall a :: Books(s, a)
    ensures Fatal(Apply(s, step), c) <==> Fatal(s, c) || (Closing(s, step, c) && ClosesEarly(s, step))
  {
    assert Books(s, c);
    if step.Decode? {
      CountIsPositive(s, step.m.conn);
      DecodeFatal(s, step.i, step.m, step.fails, c);
    } else {
      FinishOutstanding(s, step.i, step.fails);
      FinishFatal(s, step.i, step.fails, c);
    }
  }

  lemma StepFatal(s: Flow, step: Step, c: Client)
    requires Enabled(s, step) && forall a :: Books(s, a)
    ensures Fatal(Apply(s, step), c) <==> Fatal(s, c) || (Closing(s, step, c) && ClosesEarly(s, step))
  {
    assert Books(s, c);
    if step.Close? {
      CloseFatal(s, step.i, step.c, c);
    } else if step.Decode? || step.Finish? {
      ClosingFatal(s, step, c);
    } else {
      OpenFatal(s, step, c);
    }
  }

  lemma StepDoomed(s: Flow, step: Step)
    requires Enabled(s, step) && forall c :: Books(s, c)
    ensures Doomed(Apply(s, step)) <==> Doomed(s) || ClosesEarly(s, step)
  {
    var s' := Apply(s, step);
    forall c ensures Fatal(s', c) <==> Fatal(s, c) || (Closing(s, step, c) && ClosesEarly(s, step)) {
      StepFatal(s, step, c);
    }
    if ClosesEarly(s, step) {
      var c := match step
               case Close(_, a) => a
               case Decode(_, m, _) => m.conn
               case Finish(i, _) => s.io[i].phase.msg.conn;
      assert Closing(s, step, c);
    }
  }

  // A sender may find the connection without an io thread.
  ghost predicate Homeless(s: Flow) {
    exists m :: (m in s.testing || m in s.taken) && m.conn !in s.ioThread
  }

  // Apart from that, a thread of the service or a sender comes to use a connection wrongly only
  // from a doomed state.
  lemma SenderFaultIsDoomed(s: Flow, step: Step)
    requires Ready(s, step) && Faults(s, step) && (step.UserTake? || step.UserPush?) && Books(s, step.m.conn)
    ensures Doomed(s)
  {
    SendLeft(s, step);
    assert Fatal(s, step.m.conn);
  }

  lemma FaultIsDoomed(s: Flow, step: Step)
    requires Ready(s, step) && Faults(s, step) && !step.Drop? && !step.UserPushNull? && forall c :: Books(s, c)
    ensures Doomed(s)
  {
    if step.UserTake? || step.UserPush? {
      assert Books(s, step.m.conn);
      SenderFaultIsDoomed(s, step);
    } else if step.Return? {
      var c := s.workers[step.w].phase.msg.conn;
      assert Books(s, c);
      ReturnOutstanding(s, step.w);
      assert Fatal(s, c);
    } else {
      var c := s.io[step.i].phase.msg.conn;
      assert Books(s, c);
      FinishOutstanding(s, step.i, step.fails);
      assert Fatal(s, c);
    }
  }

  // ------------------------------------------------------------------------------------
  // Holds of the user
  // ------------------------------------------------------------------------------------

  // The user holds a closed connection that was freed, or that a message or sender left behind
  // will free.
  predicate HoldLost(s: Flow, c: Client) {
    c in s.holds && c in s.closed && (c in s.freed || (c in s.refs && Left(s, c) >= 1))
  }

  lemma SameHoldLost(s: Flow, s': Flow, c: Client)
    requires SameFate(s, s')
    ensures HoldLost(s', c) <==> HoldLost(s, c)
  {}

  lemma FinishHoldLost(s: Flow, i: nat, c: Client)
    requires Enabled(s, Finish(i, false)) && s.refs[s.io[i].phase.msg.conn] >= 2 + s.holds[s.io[i].phase.msg.conn]
    ensures HoldLost(Apply(s, Finish(i, false)), c) <==> HoldLost(s, c)
  {}

  lemma TakeHoldLost(s: Flow, m: Msg, c: Client)
    requires Ready(s, UserTake(m))
    ensures HoldLost(Apply(s, UserTake(m)), c) <==> HoldLost(s, c)
  {
    CountRemove(s.testing, m, c);
  }
}
