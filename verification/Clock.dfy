/** What the clock of a process counts: one for each message it multicast, each message it acked and
    each ack it collected. */
module Clock {
  import opened Messages
  import opened NodeSpec
  import opened NodeInvariant
  import opened Machine
  import opened Invariant
  import opened Agreement

  /** The acks of others in the rows of the first `n` messages; each row holds one proposal more. */
  function AcksIn(rows: Rows, n: nat): int {
    if n == 0 then 0
    else AcksIn(rows, n - 1) + if n - 1 in rows then |rows[n - 1]| - 1 else 0
  }

  /** How many messages a process has multicast and acked, and how many acks it has collected. */
  function Counted(s: NodeState): int {
    |s.dataHistory| + |s.acked| + AcksIn(s.ackHistory, s.nextMsgId)
  }

  ghost predicate ClockOk(s: NodeState) {
    s.clock == 1 + Counted(s)
  }

  lemma {:induction false} SameRows(rows: Rows, rows': Rows, n: nat)
    requires forall j :: j < n ==> (j in rows <==> j in rows') && (j in rows ==> |rows[j]| == |rows'[j]|)
    ensures AcksIn(rows, n) == AcksIn(rows', n)
  {
    if n > 0 { SameRows(rows, rows', n - 1); }
  }

  /** A row that grows by one ack adds one to the count. */
  lemma {:induction false} OneMoreAck(rows: Rows, k: nat, row': map<nat, nat>, n: nat)
    requires k in rows && |row'| == |rows[k]| + 1
    ensures AcksIn(rows[k := row'], n) == AcksIn(rows, n) + if k < n then 1 else 0
  {
    if n > 0 { OneMoreAck(rows, k, row', n - 1); }
  }

  lemma NewMapEntry<V>(m: map<nat, V>, k: nat, v: V)
    requires k !in m
    ensures |m[k := v]| == |m| + 1
  {
    assert m[k := v].Keys == m.Keys + {k};
    assert |m[k := v].Keys| == |m[k := v]| && |m.Keys| == |m|;
  }

  lemma MulticastCounts(hosts: set<nat>, s: NodeState, data: nat, s': NodeState, sent: set<Packet>)
    requires DoMulticast(hosts, s, data, s', sent) && s.nextMsgId !in s.dataHistory && s.nextMsgId !in s.ackHistory
    ensures Counted(s') == Counted(s) + 1 && s'.clock == s.clock + 1
  {
    var k, c := s.nextMsgId, s.clock + 1;
    NewMapEntry(s.dataHistory, k, data);
    SameRows(s.ackHistory, s'.ackHistory, k);
    assert |map[s.id := c]| == 1;
  }

  lemma DataCounts(s: NodeState, d: DataMessage, s': NodeState, sent: set<Packet>)
    requires HandleData(s, d, s', sent)
    ensures if exists a :: a in s.acked && a.Key() == d.Key() then s' == s
            else Counted(s') == Counted(s) + 1 && s'.clock == s.clock + 1
  {
    if !exists a :: a in s.acked && a.Key() == d.Key() {
      var a := AckMessage(d.sender, d.msgId, s.clock, s.id);
      assert a.Key() == d.Key() && a !in s.acked;
      SameRows(s.ackHistory, s'.ackHistory, s.nextMsgId);
    }
  }

  lemma NewAckCounts(hosts: set<nat>, s: NodeState, a: AckMessage, s': NodeState, sent: set<Packet>)
    requires HandleAck(hosts, s, a, s', sent) && a.msgId in s.ackHistory && a.msgId < s.nextMsgId
    requires a.proposer !in s.ackHistory[a.msgId]
    ensures Counted(s') == Counted(s) + 1 && s'.clock == s.clock + 1
  {
    hide FinalisedAndDelivered, MaxProposal;
    NewMapEntry(s.ackHistory[a.msgId], a.proposer, a.proposedSeq);
    OneMoreAck(s.ackHistory, a.msgId, WithAck(s.ackHistory[a.msgId], a.proposer, a.proposedSeq), s.nextMsgId);
  }

  lemma OldAckCounts(hosts: set<nat>, s: NodeState, a: AckMessage, s': NodeState, sent: set<Packet>)
    requires HandleAck(hosts, s, a, s', sent) && a.proposer in Row(s, a.msgId)
    ensures s'.(exited := s.exited) == s
  {
    hide FinalisedAndDelivered, MaxProposal;
  }

  lemma SeqCounts(s: NodeState, m: SeqMessage, s': NodeState, sent: set<Packet>)
    requires HandleSeq(s, m, s', sent)
    ensures Counted(s') == Counted(s) && s'.clock == s.clock
  {
    hide FinalisedAndDelivered;
  }

  lemma OwnRow(hosts: set<nat>, s: NodeState, k: nat)
    requires Local(hosts, s) && k in s.ackHistory
    ensures k < s.nextMsgId
  {
    hide AckedOk, SelfOk, ProposalsOk, SeqsOk, DecisionsOk, QueueOk, OrderOk, LearntOk;
  }

  lemma EventKeepsClock(hosts: set<nat>, s: NodeState, e: Event, s': NodeState, sent: set<Packet>)
    requires Local(hosts, s) && NodeNext(hosts, s, e, s', sent) && ClockOk(s)
    requires e.OnAck? ==> FittingAck(hosts, s, e.ack)
    ensures ClockOk(s')
  {
    hide Local, HandleData, HandleAck, HandleSeq, HandleDataTimeout, HandleAckTimeout, DoMulticast, Counted;
    OwnKeyIsNew(hosts, s);
    match e
    case Multicast(data) => MulticastCounts(hosts, s, data, s', sent);
    case OnData(d) => DataCounts(s, d, s', sent);
    case OnAck(a) =>
      if a.proposer in Row(s, a.msgId) {
        OldAckCounts(hosts, s, a, s', sent);
        ExitCountsNothing(s, s');
      } else {
        OwnRow(hosts, s, a.msgId);
        NewAckCounts(hosts, s, a, s', sent);
      }
    case OnSeq(m) => SeqCounts(s, m, s', sent);
    case _ =>
      TimeoutEffect(hosts, s, e, s', sent);
      ExitCountsNothing(s, s');
  }

  lemma ExitCountsNothing(s: NodeState, s': NodeState)
    requires s'.(exited := s.exited) == s
    ensures Counted(s') == Counted(s) && s'.clock == s.clock
  {
  }

  ghost predicate ClocksOk(w: World) {
    forall p :: p in w.nodes ==> ClockOk(w.nodes[p])
  }

  lemma StepKeepsClocks(w: World, step: Step, w': World)
    requires Inv(w) && NextStep(w, step, w') && ClocksOk(w)
    ensures ClocksOk(w')
  {
    hide Inv, Local, CrossOk, NodeNext, ClockOk, FittingAck;
    if step.Act? {
      NodeIsOk(w, step.p);
      if step.event.OnAck? { AckFits(w, step.p, step.event.ack); }
      EventKeepsClock(w.hosts, w.nodes[step.p], step.event, w'.nodes[step.p], step.sent);
    }
  }

  lemma {:induction false} RunKeepsClocks(run: seq<World>, i: nat)
    requires IsRun(run) && i < |run|
    ensures ClocksOk(run[i])
  {
    hide Next, Inv, ClockOk;
    if i == 0 {
      forall p | p in run[0].nodes ensures ClockOk(run[0].nodes[p]) { StartsAtOne(p); }
    } else {
      RunKeepsClocks(run, i - 1);
      RunInv(run, i - 1);
      assert Next(run[i - 1], run[i - 1 + 1]);
      var step := SomeStep(run[i - 1], run[i]);
      StepKeepsClocks(run[i - 1], step, run[i]);
    }
  }

  lemma SomeStep(w: World, w': World) returns (step: Step)
    requires Next(w, w')
    ensures NextStep(w, step, w')
  {
    hide NextStep;
    step :| NextStep(w, step, w');
  }

  lemma StartsAtOne(p: nat)
    ensures ClockOk(InitialNode(p))
  {
  }

  /** The clock of every process, in every run: one, and one more for each message it has multicast,
      each message it has acked and each ack it has collected. */
  lemma ClockCounts(w: World, p: nat)
    requires Reachable(w) && p in w.nodes
    ensures var s := w.nodes[p];
            s.clock == 1 + |s.dataHistory| + |s.acked| + AcksIn(s.ackHistory, s.nextMsgId)
  {
    hide IsRun, ClockOk;
    var run := SomeRun(w);
    RunKeepsClocks(run, |run| - 1);
    assert ClocksOk(w);
    Unfolded(w.nodes[p]);
  }

  lemma SomeRun(w: World) returns (run: seq<World>)
    requires Reachable(w)
    ensures IsRun(run) && |run| > 0 && run[|run| - 1] == w
  {
    hide Next, Init;
    run :| IsRun(run) && run[|run| - 1] == w;
  }

  lemma Unfolded(s: NodeState)
    requires ClockOk(s)
    ensures s.clock == 1 + |s.dataHistory| + |s.acked| + AcksIn(s.ackHistory, s.nextMsgId)
  {
  }

  /** The number a process proposes for a message it takes in: what it had counted by then, its own new
      message included. */
  lemma ProposalCounts(w: World, p: nat, e: Event, sent: set<Packet>, w': World, m: MsgKey)
    requires Reachable(w) && NextStep(w, Act(p, e, sent), w')
    requires m in w'.nodes[p].accepted && m !in w.nodes[p].accepted
    ensures var s, s' := w.nodes[p], w'.nodes[p];
            s'.accepted[m].proposal == 1 + |s'.dataHistory| + |s.acked| + AcksIn(s.ackHistory, s.nextMsgId)
  {
    hide Reachable, Inv, Local, CrossOk, HandleAck, HandleSeq, HandleDataTimeout, HandleAckTimeout;
    ReachableInv(w);
    NodeIsOk(w, p);
    OwnKeyIsNew(w.hosts, w.nodes[p]);
    ClockCounts(w, p);
    var s, s' := w.nodes[p], w'.nodes[p];
    match e
    case Multicast(data) => NewMapEntry(s.dataHistory, s.nextMsgId, data);
    case OnData(d) => DataCounts(s, d, s', sent);
    case OnAck(a) => AckEffect(w.hosts, s, a, s', sent);
    case OnSeq(f) => SeqEffect(s, f, s', sent);
    case _ => TimeoutEffect(w.hosts, s, e, s', sent);
  }
}
