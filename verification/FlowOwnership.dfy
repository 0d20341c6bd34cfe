/** Which io thread owns which connection. */
module FlowOwnership {
  import opened ServiceFlow

  function HeldAdopting(p: IoPhase): seq<Client> { if p.Adopting? then [p.conn] else [] }

  function HeldAccepted(p: IoPhase): seq<Client> { if p.Accepted? then [p.conn] else [] }

  // The connections of a sequence at home at thread `i`.
  ghost function ByHome(cs: seq<Client>, i: nat, n: nat): seq<Client>
    requires n > 0
  {
    if cs == [] then []
    else
      var c := cs[|cs| - 1];
      ByHome(cs[..|cs| - 1], i, n) + (if Home(c, n) == i then [c] else [])
  }

  lemma ByHomeAppend(cs: seq<Client>, c: Client, i: nat, n: nat)
    requires n > 0
    ensures ByHome(cs + [c], i, n) == ByHome(cs, i, n) + (if Home(c, n) == i then [c] else [])
  {
    assert (cs + [c])[..|cs|] == cs;
  }

  lemma ByHomeOne(c: Client, i: nat, n: nat)
    requires n > 0
    ensures ByHome([c], i, n) == if Home(c, n) == i then [c] else []
  {
    ByHomeAppend([], c, i, n);
    assert [] + [c] == [c];
  }

  lemma {:induction false} ByHomeHas(cs: seq<Client>, c: Client, n: nat)
    requires n > 0 && c in cs
    ensures c in ByHome(cs, Home(c, n), n)
    decreases |cs|
  {
    if c != cs[|cs| - 1] {
      ByHomeHas(cs[..|cs| - 1], c, n);
    }
  }

  // Which thread the service promises a connection: the only one, or a follower by the
  // descriptor modulo their number.
  predicate AtThread(c: Client, i: nat, n: nat)
    requires n > 0
  {
    if n == 1 then i == 0 else i == c.fd % (n - 1) + 1
  }

  // The connections of a sequence that it promises to thread `i`.
  ghost function ForThread(cs: seq<Client>, i: nat, n: nat): seq<Client>
    requires n > 0
  {
    if cs == [] then []
    else ForThread(cs[..|cs| - 1], i, n) + (if AtThread(cs[|cs| - 1], i, n) then [cs[|cs| - 1]] else [])
  }

  lemma HomeIsPromised(c: Client, i: nat, n: nat)
    requires n > 0
    ensures Home(c, n) == i <==> AtThread(c, i, n)
  {}

  lemma {:induction false} ByHomeIsPromised(cs: seq<Client>, i: nat, n: nat)
    requires n > 0
    ensures ByHome(cs, i, n) == ForThread(cs, i, n)
    decreases |cs|
  {
    if cs != [] {
      HomeIsPromised(cs[|cs| - 1], i, n);
      ByHomeIsPromised(cs[..|cs| - 1], i, n);
    }
  }

  lemma Monotone(m: int, a: int, b: int)
    requires m >= 0 && a <= b
    ensures m * a <= m * b
  {}

  lemma SmallMultiple(q: int, m: int)
    requires -m < m * q < m
    ensures q == 0
  {
    if q >= 1 {
      Monotone(m, 1, q);
    } else if q <= -1 {
      Monotone(m, q, -1);
    }
  }

  lemma Residue(x: nat, q: nat, r: nat, m: nat)
    requires x == m * q + r && r < m
    ensures x % m == r
  {
    assert m * (q - x / m) == x % m - r;
    SmallMultiple(q - x / m, m);
  }

  lemma SameResidue(a: nat, b: nat, m: nat)
    requires 0 < m && a % m == b % m && a - m < b < a + m
    ensures a == b
  {
    assert m * (b / m - a / m) == b - a;
    SmallMultiple(b / m - a / m, m);
  }

  lemma ResidueIn(base: nat, r: nat, m: nat) returns (x: nat)
    requires r < m
    ensures base <= x < base + m && x % m == r
  {
    var b := base / m;
    assert base == m * b + base % m;
    if base % m <= r {
      x := m * b + r;
      Residue(x, b, r, m);
    } else {
      x := m * b + m + r;
      Residue(x, b + 1, r, m);
    }
  }

  // Of any n - 1 consecutive descriptors exactly one goes to each follower.
  lemma EachFollowerOnce(base: nat, i: nat, n: nat) returns (fd: nat)
    requires 0 < i < n
    ensures base <= fd < base + (n - 1)
    ensures forall c: Client :: base <= c.fd < base + (n - 1) ==> (Home(c, n) == i <==> c.fd == fd)
  {
    var m := n - 1;
    fd := ResidueIn(base, i - 1, m);
    forall c: Client | base <= c.fd < base + m ensures Home(c, n) == i <==> c.fd == fd {
      HomeIsPromised(c, i, n);
      if c.fd % m == fd % m {
        SameResidue(fd, c.fd, m);
      }
    }
  }

  // Adopted, in the thread's hand, in its queue.
  function Arrived(t: IoThread): seq<Client> { t.adopted + HeldAdopting(t.phase) + t.connQ }

  // The accepted connections of thread `i`, oldest first: arrived there, or still in the
  // leader's hand.  A lone thread hands nothing over.
  ghost predicate Owned(s: Flow, i: nat) {
    && i < |s.io|
    && ByHome(s.accepted, i, |s.io|) == Arrived(s.io[i]) + ByHome(HeldAccepted(s.io[0].phase), i, |s.io|)
    && (|s.io| == 1 ==> s.io[i].connQ == [] && !s.io[i].phase.Adopting?)
  }

  lemma AcceptShape(s: Flow, c: Client, i: nat)
    requires Ready(s, Accept(c)) && i < |s.io|
    ensures var s' := Apply(s, Accept(c));
            && |s'.io| == |s.io| && s'.accepted == s.accepted + [c]
            && Arrived(s'.io[i]) == Arrived(s.io[i]) && s'.io[i].connQ == s.io[i].connQ
            && !s'.io[0].phase.Adopting? && (i != 0 ==> s'.io[i] == s.io[i])
            && HeldAccepted(s.io[0].phase) == [] && HeldAccepted(s'.io[0].phase) == [c]
  {}

  lemma GrowTail(accepted: seq<Client>, arrived: seq<Client>, more: seq<Client>)
    requires accepted == arrived + []
    ensures accepted + more == arrived + more
  {}

  lemma AcceptOwned(s: Flow, c: Client, i: nat)
    requires Ready(s, Accept(c)) && Owned(s, i)
    ensures Owned(Apply(s, Accept(c)), i)
  {
    AcceptShape(s, c, i);
    ByHomeAppend(s.accepted, c, i, |s.io|);
    ByHomeOne(c, i, |s.io|);
    GrowTail(ByHome(s.accepted, i, |s.io|), Arrived(s.io[i]), ByHome([c], i, |s.io|));
  }

  lemma HandArrives(s: Flow, i: nat)
    requires Ready(s, Hand) && i < |s.io| && (|s.io| == 1 ==> s.io[i].connQ == [])
    ensures var c := s.io[0].phase.conn;
            Arrived(Apply(s, Hand).io[i]) == Arrived(s.io[i]) + if Home(c, |s.io|) == i then [c] else []
  {}

  lemma HandShape(s: Flow, i: nat)
    requires Ready(s, Hand) && i < |s.io|
    ensures var s' := Apply(s, Hand);
            && |s'.io| == |s.io| && s'.accepted == s.accepted
            && HeldAccepted(s.io[0].phase) == [s.io[0].phase.conn] && HeldAccepted(s'.io[0].phase) == []
            && (|s.io| == 1 ==> s'.io[i].connQ == s.io[i].connQ && !s'.io[i].phase.Adopting?)
  {}

  lemma HandOwned(s: Flow, i: nat)
    requires Ready(s, Hand) && Owned(s, i)
    ensures Owned(Apply(s, Hand), i)
  {
    HandShape(s, i);
    HandArrives(s, i);
    ByHomeOne(s.io[0].phase.conn, i, |s.io|);
  }

  // A connection moves on inside its thread.
  lemma MoveArrived(s: Flow, step: Step, i: nat)
    requires Ready(s, step) && i < |s.io| && (step.PopConn? || step.Adopt?)
    ensures Arrived(Apply(s, step).io[i]) == Arrived(s.io[i])
  {
    if step.PopConn? {
      var q := s.io[step.i].connQ;
      assert q == [q[0]] + q[1..];
    }
  }

  // The hand-over inside the thread's loop moves no connection.
  lemma LoopArrived(s: Flow, step: Step, i: nat)
    requires Ready(s, step) && i < |s.io| && (step.HandSignal? || step.WakeConns? || step.CheckConns?)
    ensures Arrived(Apply(s, step).io[i]) == Arrived(s.io[i])
  {
    var t, t' := s.io[i], Apply(s, step).io[i];
    assert t'.adopted == t.adopted && t'.connQ == t.connQ && HeldAdopting(t'.phase) == HeldAdopting(t.phase);
  }

  lemma ConnAccepted(s: Flow, step: Step)
    requires Ready(s, step) && ConnSide(step) && !step.Accept? && !step.Hand?
    ensures var s' := Apply(s, step);
            && s'.accepted == s.accepted && |s'.io| == |s.io|
            && HeldAccepted(s'.io[0].phase) == HeldAccepted(s.io[0].phase)
  {}

  lemma LoneThread(s: Flow, step: Step)
    requires Ready(s, step) && ConnSide(step) && |s.io| == 1 && s.io[0].connQ == [] && !s.io[0].phase.Adopting?
    ensures Apply(s, step).io[0].connQ == [] && !Apply(s, step).io[0].phase.Adopting?
  {}

  lemma AsideOwned(s: Flow, s': Flow, i: nat)
    requires Owned(s, i) && ConnsAside(s, s')
    ensures Owned(s', i)
  {
    assert Aside(s.io[i], s'.io[i]) && Aside(s.io[0], s'.io[0]);
    assert Arrived(s'.io[i]) == Arrived(s.io[i]);
  }

  lemma SameOwned(s: Flow, s': Flow, i: nat)
    requires Owned(s, i) && |s'.io| == |s.io| && s'.accepted == s.accepted
    requires HeldAccepted(s'.io[0].phase) == HeldAccepted(s.io[0].phase) && Arrived(s'.io[i]) == Arrived(s.io[i])
    requires |s.io| == 1 ==> s'.io[i].connQ == [] && !s'.io[i].phase.Adopting?
    ensures Owned(s', i)
  {}

  lemma ConnArrived(s: Flow, step: Step, i: nat)
    requires Ready(s, step) && i < |s.io| && ConnSide(step) && !step.Accept? && !step.Hand?
    ensures Arrived(Apply(s, step).io[i]) == Arrived(s.io[i])
  {
    if step.PopConn? || step.Adopt? {
      MoveArrived(s, step, i);
    } else {
      LoopArrived(s, step, i);
    }
  }

  lemma ConnLone(s: Flow, step: Step, i: nat)
    requires Ready(s, step) && ConnSide(step) && Owned(s, i) && |Apply(s, step).io| == |s.io|
    ensures |s.io| == 1 ==> Apply(s, step).io[i].connQ == [] && !Apply(s, step).io[i].phase.Adopting?
  {
    if |s.io| == 1 {
      LoneThread(s, step);
    }
  }

  lemma ConnOwned(s: Flow, step: Step, i: nat)
    requires Ready(s, step) && Owned(s, i) && ConnSide(step) && !step.Accept? && !step.Hand?
    ensures Owned(Apply(s, step), i)
  {
    ConnAccepted(s, step);
    ConnArrived(s, step, i);
    ConnLone(s, step, i);
    SameOwned(s, Apply(s, step), i);
  }

  lemma StepOwned(s: Flow, step: Step, i: nat)
    requires Ready(s, step) && Owned(s, i)
    ensures Owned(Apply(s, step), i)
  {
    if step.Accept? {
      AcceptOwned(s, step.c, i);
    } else if step.Hand? {
      HandOwned(s, i);
    } else if ConnSide(step) {
      ConnOwned(s, step, i);
    } else {
      StepAside(s, step);
      AsideOwned(s, Apply(s, step), i);
    }
  }

  // With several io threads nothing is at home at the leader.
  lemma LeaderHasNone(s: Flow)
    requires Placed(s) && |s.io| > 1
    ensures s.io[0].adopted == [] && s.io[0].connQ == []
  {
    assert IoOk(s, 0);
    SomeMember(s.io[0].adopted);
    SomeMember(s.io[0].connQ);
  }

  lemma SomeMember(cs: seq<Client>)
    ensures cs == [] || exists c :: c in cs
  {
    if cs != [] {
      assert cs[0] in cs;
    }
  }
}
