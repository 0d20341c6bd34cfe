/** The histories of a service against the steps taken: what was accepted, created, entered and
    held, read off the steps of a run alone, and which steps close, free and reclaim.
 */
module FlowHistory {
  import opened ServiceFlow
  import opened FlowOrder
  import opened FlowLifetime

  // ------------------------------------------------------------------------------------
  // What a run's steps say
  // ------------------------------------------------------------------------------------

  datatype Book = Book(
    accepted: seq<Client>,
    created: set<Msg>,
    entered: seq<Msg>,
    testing: set<Msg>,
    taken: set<Msg>,
    holds: multiset<Client>)

  const EMPTY := Book([], {}, [], {}, {}, multiset{})

  // A connection comes by an accept; a request is created and enters by being decoded; a send
  // is tested, taken (and so created) and pushed (and so enters); holds come and go.
  function Entry(b: Book, step: Step): Book {
    match step
    case Accept(c) => b.(accepted := b.accepted + [c])
    case Decode(_, m, _) => b.(created := b.created + {m}, entered := b.entered + [m])
    case UserTest(m) => b.(testing := b.testing + {m})
    case UserTake(m) => b.(testing := b.testing - {m}, taken := b.taken + {m}, created := b.created + {m})
    case UserPush(m) => b.(taken := b.taken - {m}, entered := b.entered + [m])
    case Hold(c) => b.(holds := b.holds + multiset{c})
    case Drop(c) => b.(holds := b.holds - multiset{c})
    case _ => b
  }

  function Entries(b: Book, steps: seq<Step>): Book
    decreases |steps|
  {
    if steps == [] then b else Entries(Entry(b, steps[0]), steps[1..])
  }

  function BookOf(steps: seq<Step>): Book { Entries(EMPTY, steps) }

  // The same histories as the state keeps them.
  function Kept(s: Flow): Book { Book(s.accepted, s.created, s.entered, s.testing, s.taken, s.holds) }

  lemma ConnEntry(s: Flow, step: Step)
    requires Ready(s, step) && ConnSide(step)
    ensures Kept(Apply(s, step)) == Entry(Kept(s), step)
  {}

  lemma DecodeEntry(s: Flow, i: nat, m: Msg, fails: bool)
    requires Ready(s, Decode(i, m, fails))
    ensures Kept(Apply(s, Decode(i, m, fails))) == Entry(Kept(s), Decode(i, m, fails))
  {
    ProcessedKept(Entered(Created(s, m), m), m, fails);
  }

  lemma ProcessedKept(s: Flow, m: Msg, fails: bool)
    requires m.conn in s.refs
    ensures Kept(Processed(s, m, fails)) == Kept(s)
  {}

  lemma FinishEntry(s: Flow, i: nat, fails: bool)
    requires Ready(s, Finish(i, fails))
    ensures Kept(Apply(s, Finish(i, fails))) == Kept(s)
  {
    ProcessedKept(SetPhase(s, i, MsgCheck), s.io[i].phase.msg, fails);
  }

  lemma UserEntry(s: Flow, step: Step)
    requires Ready(s, step) && (UserSide(step) || step.UserPush?)
    ensures Kept(Apply(s, step)) == Entry(Kept(s), step)
  {}

  lemma LoopEntry(s: Flow, step: Step)
    requires Ready(s, step)
    requires step.Close? || step.WakeMsgs? || step.CheckMsgs? || step.PopMsg? || step.UserSignal?
    ensures Kept(Apply(s, step)) == Kept(s)
  {}

  lemma StepEntry(s: Flow, step: Step)
    requires Ready(s, step)
    ensures Kept(Apply(s, step)) == Entry(Kept(s), step)
  {
    if ConnSide(step) {
      ConnEntry(s, step);
    } else if PoolSide(step) {
      PoolStepMoves(s, step);
    } else if step.Decode? {
      DecodeEntry(s, step.i, step.m, step.fails);
    } else if step.Finish? {
      FinishEntry(s, step.i, step.fails);
    } else if UserSide(step) || step.UserPush? {
      UserEntry(s, step);
    } else {
      LoopEntry(s, step);
    }
  }

  lemma {:induction false} RunEntries(s: Flow, steps: seq<Step>)
    requires Legal(s, steps)
    ensures Kept(Exec(s, steps)) == Entries(Kept(s), steps)
    decreases |steps|
  {
    if steps != [] {
      StepEntry(s, steps[0]);
      RunEntries(Apply(s, steps[0]), steps[1..]);
    }
  }

  // Nothing is accepted, created, sent or held but by the steps that say so, and each of them
  // counts.
  lemma HistoryIsSteps(n: nat, w: nat, steps: seq<Step>)
    requires Legal(Init(n, w), steps)
    ensures Kept(Exec(Init(n, w), steps)) == BookOf(steps)
  {
    RunEntries(Init(n, w), steps);
    assert Kept(Init(n, w)) == EMPTY;
  }

  // ------------------------------------------------------------------------------------
  // Closed, freed, reclaimed
  // ------------------------------------------------------------------------------------

  // No message is out for the connection and the user does not hold it.
  ghost predicate Unreferenced(s: Flow, c: Client) { Outstanding(s, c) == 0 && s.holds[c] == 0 }

  // The message thread `i` is about to process.
  predicate InHand(s: Flow, i: nat, c: Client) {
    i < |s.io| && s.io[i].phase.Returned? && s.io[i].phase.msg.conn == c
  }

  // The step closes the connection, if it is open: by its read or write callback, or by a reply
  // that cannot be written.
  predicate ClosesNow(s: Flow, step: Step, c: Client) {
    match step
    case Close(_, a) => a == c
    case Decode(_, m, fails) => s.workers == [] && fails && m.conn == c
    case Finish(i, fails) => fails && InHand(s, i, c)
    case _ => false
  }

  // It reclaims it: a close by a callback of a connection nobody refers to.
  ghost predicate ReclaimsNow(s: Flow, step: Step, c: Client) {
    step.Close? && step.c == c && Unreferenced(s, c)
  }

  // It frees it: by reclaiming, or because a message came back to it closed.
  ghost predicate FreesNow(s: Flow, step: Step, c: Client) {
    ReclaimsNow(s, step, c) || (step.Finish? && InHand(s, step.i, c) && c in s.closed)
  }

  ghost predicate ClosedBy(s: Flow, steps: seq<Step>, c: Client)
    requires Legal(s, steps)
    decreases |steps|
  {
    steps != [] && (ClosesNow(s, steps[0], c) || ClosedBy(Apply(s, steps[0]), steps[1..], c))
  }

  ghost predicate FreedBy(s: Flow, steps: seq<Step>, c: Client)
    requires Legal(s, steps)
    decreases |steps|
  {
    steps != [] && (FreesNow(s, steps[0], c) || FreedBy(Apply(s, steps[0]), steps[1..], c))
  }

  ghost predicate ReclaimedBy(s: Flow, steps: seq<Step>, c: Client)
    requires Legal(s, steps)
    decreases |steps|
  {
    steps != [] && (ReclaimsNow(s, steps[0], c) || ReclaimedBy(Apply(s, steps[0]), steps[1..], c))
  }

  ghost predicate Ledger(s: Flow, s': Flow, step: Step, c: Client) {
    && (c in s'.closed <==> c in s.closed || ClosesNow(s, step, c))
    && (c in s'.freed <==> c in s.freed || FreesNow(s, step, c))
    && (c in s'.reclaimed <==> c in s.reclaimed || ReclaimsNow(s, step, c))
  }

  predicate SameEnds(s: Flow, s': Flow) {
    s'.closed == s.closed && s'.freed == s.freed && s'.reclaimed == s.reclaimed
  }

  lemma ConnEnds(s: Flow, step: Step)
    requires Ready(s, step) && ConnSide(step)
    ensures SameEnds(s, Apply(s, step))
  {}

  lemma QuietEnds(s: Flow, step: Step)
    requires Ready(s, step) && !step.Close? && !step.Decode? && !step.Finish?
    ensures SameEnds(s, Apply(s, step))
  {
    if ConnSide(step) {
      ConnEnds(s, step);
    } else if PoolSide(step) {
      PoolStepMoves(s, step);
    }
  }

  // A message processed while another reference is there besides its own cannot reclaim.
  lemma ProcessedEnds(s: Flow, m: Msg, fails: bool, c: Client)
    requires m.conn in s.refs && s.refs[m.conn] >= 2
    ensures var s' := Processed(s, m, fails);
            && (c in s'.closed <==> c in s.closed || (fails && m.conn == c))
            && (c in s'.freed <==> c in s.freed || (m.conn == c && c in s.closed))
            && s'.reclaimed == s.reclaimed
  {}

  lemma DecodeLedger(s: Flow, i: nat, m: Msg, fails: bool, c: Client)
    requires Ready(s, Decode(i, m, fails)) && s.refs[m.conn] >= 1
    ensures Ledger(s, Apply(s, Decode(i, m, fails)), Decode(i, m, fails), c)
  {
    ProcessedEnds(Entered(Created(s, m), m), m, fails, c);
  }

  lemma FinishLedger(s: Flow, i: nat, fails: bool, c: Client)
    requires Ready(s, Finish(i, fails)) && s.refs[s.io[i].phase.msg.conn] >= 2
    ensures Ledger(s, Apply(s, Finish(i, fails)), Finish(i, fails), c)
  {
    ProcessedEnds(SetPhase(s, i, MsgCheck), s.io[i].phase.msg, fails, c);
  }

  lemma CloseLedger(s: Flow, i: nat, a: Client, c: Client)
    requires Ready(s, Close(i, a)) && Counted(s, a)
    requires Outstanding(s, a) >= 0
    ensures Ledger(s, Apply(s, Close(i, a)), Close(i, a), c)
  {}

  lemma StepLedger(s: Flow, step: Step, c: Client)
    requires Ready(s, step) && forall a :: Books(s, a)
    ensures Ledger(s, Apply(s, step), step, c)
  {
    if step.Close? {
      assert Books(s, step.c);
      CountIsPositive(s, step.c);
      CloseLedger(s, step.i, step.c, c);
    } else if step.Decode? {
      assert Books(s, step.m.conn);
      CountIsPositive(s, step.m.conn);
      DecodeLedger(s, step.i, step.m, step.fails, c);
    } else if step.Finish? {
      assert Books(s, s.io[step.i].phase.msg.conn);
      FinishOutstanding(s, step.i, step.fails);
      FinishLedger(s, step.i, step.fails, c);
    } else {
      QuietEnds(s, step);
    }
  }
}
