/** What every run keeps true of the whole system. */
module Invariant {
  import opened Messages
  import opened NodeSpec
  import opened NodeInvariant
  import opened Machine

  /** Every message a process has taken in was multicast by its sender, with that data. */
  ghost predicate LedgerTrue(nodes: Nodes, ledger: Ledger) {
    forall m :: m in ledger ==>
      && m.sender in nodes
      && m.msgId in nodes[m.sender].dataHistory
      && nodes[m.sender].dataHistory[m.msgId] == ledger[m].data
  }

  /** Every proposal a sender has collected was made by the process it is credited to. */
  ghost predicate RowsTrue(nodes: Nodes, p: nat, rows: Rows) {
    forall k, h :: k in rows && h in rows[k] ==>
      && h in nodes
      && MsgKey(p, k) in nodes[h].accepted
      && nodes[h].accepted[MsgKey(p, k)].proposal == rows[k][h]
  }

  /** Every decision a process knows was taken by the sender of its message. */
  ghost predicate SeqsTrue(nodes: Nodes, seqs: set<SeqMessage>) {
    forall d :: d in seqs ==> d.sender in nodes && d in nodes[d.sender].seqHistory
  }

  ghost predicate CrossOk(nodes: Nodes, p: nat) {
    && p in nodes
    && LedgerTrue(nodes, nodes[p].accepted)
    && RowsTrue(nodes, p, nodes[p].ackHistory)
    && SeqsTrue(nodes, nodes[p].seqHistory)
  }

  ghost predicate PacketOk(nodes: Nodes, pkt: Packet) {
    && pkt.dst in nodes
    && match pkt.payload
       case DataPayload(d) =>
         && d.sender in nodes && pkt.dst != d.sender
         && d.msgId in nodes[d.sender].dataHistory && nodes[d.sender].dataHistory[d.msgId] == d.data
       case AckPayload(a) =>
         && a.sender == pkt.dst && a.proposer in nodes && a.proposer != a.sender
         && a.Key() in nodes[a.proposer].accepted && nodes[a.proposer].accepted[a.Key()].proposal == a.proposedSeq
       case SeqPayload(d) =>
         && d.sender in nodes && pkt.dst != d.sender
         && d in nodes[d.sender].seqHistory
  }

  ghost predicate NetOk(nodes: Nodes, net: set<Packet>) {
    forall pkt :: pkt in net ==> PacketOk(nodes, pkt)
  }

  ghost predicate NodesOk(hosts: set<nat>, nodes: Nodes) {
    && nodes.Keys == hosts
    && forall p :: p in nodes ==> nodes[p].id == p && Local(hosts, nodes[p]) && CrossOk(nodes, p)
  }

  ghost predicate Inv(w: World) {
    NodesOk(w.hosts, w.nodes) && NetOk(w.nodes, w.net)
  }

  // ---------- histories only grow ----------

  ghost predicate Grows(s: NodeState, s': NodeState) {
    && s'.id == s.id
    && s.seqHistory <= s'.seqHistory
    && (forall m :: m in s.accepted ==> m in s'.accepted && s'.accepted[m] == s.accepted[m])
    && (forall k :: k in s.dataHistory ==> k in s'.dataHistory && s'.dataHistory[k] == s.dataHistory[k])
  }

  lemma OwnKeyIsNew(hosts: set<nat>, s: NodeState)
    requires Local(hosts, s)
    ensures s.nextMsgId !in s.dataHistory && s.nextMsgId !in s.ackHistory
    ensures MsgKey(s.id, s.nextMsgId) !in s.accepted
  {
    hide AckedOk, ProposalsOk, SeqsOk, DecisionsOk, QueueOk;
    assert MsgKey(s.id, s.nextMsgId).sender == s.id;
  }

  // What the handlers leave alone, and what they add.

  lemma AckEffect(hosts: set<nat>, s: NodeState, a: AckMessage, s': NodeState, sent: set<Packet>)
    requires HandleAck(hosts, s, a, s', sent)
    ensures s'.id == s.id && s'.accepted == s.accepted && s'.dataHistory == s.dataHistory && s'.acked == s.acked
    ensures s'.seqHistory == s.seqHistory
            || exists d: SeqMessage :: d.Key() == a.Key() && s'.seqHistory == s.seqHistory + {d}
    ensures s'.ackHistory == s.ackHistory
            || s'.ackHistory == s.ackHistory[a.msgId := WithAck(Row(s, a.msgId), a.proposer, a.proposedSeq)]
  {
    hide FinalisedAndDelivered, MaxProposal, Row, WithAck, Others;
    if s'.seqHistory != s.seqHistory {
      var row := WithAck(Row(s, a.msgId), a.proposer, a.proposedSeq);
      var d := SeqMessage(a.sender, a.msgId, MaxProposal(row).0, MaxProposal(row).1);
      assert d.Key() == a.Key() && s'.seqHistory == s.seqHistory + {d};
    }
  }

  lemma SeqEffect(s: NodeState, m: SeqMessage, s': NodeState, sent: set<Packet>)
    requires HandleSeq(s, m, s', sent)
    ensures s'.id == s.id && s'.accepted == s.accepted && s'.dataHistory == s.dataHistory && s'.acked == s.acked
    ensures s'.ackHistory == s.ackHistory && sent == {}
    ensures s'.seqHistory == s.seqHistory || s'.seqHistory == s.seqHistory + {m}
  {
    hide FinalisedAndDelivered;
  }

  lemma DataEffect(s: NodeState, d: DataMessage, s': NodeState, sent: set<Packet>)
    requires HandleData(s, d, s', sent)
    ensures s'.id == s.id && s'.dataHistory == s.dataHistory && s'.ackHistory == s.ackHistory
    ensures s'.seqHistory == s.seqHistory
    ensures if exists a :: a in s.acked && a.Key() == d.Key() then s' == s
            else exists c, n :: s'.accepted == s.accepted[d.Key() := Acceptance(c, n, d.data)]
  {
    if !exists a :: a in s.acked && a.Key() == d.Key() {
      assert s'.accepted == s.accepted[d.Key() := Acceptance(s.clock, |s.delivered|, d.data)];
    }
  }

  lemma TimeoutEffect(hosts: set<nat>, s: NodeState, e: Event, s': NodeState, sent: set<Packet>)
    requires NodeNext(hosts, s, e, s', sent) && (e.DataTimeout? || e.AckTimeout?)
    ensures s' == s || s' == s.(exited := true)
  {
  }

  lemma NodeGrows(hosts: set<nat>, s: NodeState, e: Event, s': NodeState, sent: set<Packet>)
    requires Local(hosts, s) && NodeNext(hosts, s, e, s', sent)
    requires e.OnData? ==> e.dataMessage.sender != s.id
    ensures Grows(s, s') && s'.id == s.id
  {
    hide OwnOk, SelfOk, ProposalsOk, SeqsOk, DecisionsOk, QueueOk, OrderOk, LearntOk, AckedOk, HandleData, HandleAck,
      HandleSeq, HandleDataTimeout, HandleAckTimeout;
    match e
    case Multicast(data) => OwnKeyIsNew(hosts, s);
    case OnData(d) =>
      UnackedIsNew(s.id, s.acked, s.accepted, d);
      DataEffect(s, d, s', sent);
    case OnAck(a) => AckEffect(hosts, s, a, s', sent);
    case OnSeq(m) => SeqEffect(s, m, s', sent);
    case _ => TimeoutEffect(hosts, s, e, s', sent);
  }

  lemma GrowthKeepsPacket(nodes: Nodes, p: nat, s': NodeState, pkt: Packet)
    requires p in nodes && Grows(nodes[p], s') && PacketOk(nodes, pkt)
    ensures PacketOk(nodes[p := s'], pkt)
  {
  }

  lemma GrowthKeepsCross(nodes: Nodes, p: nat, s': NodeState, q: nat)
    requires p in nodes && q != p && Grows(nodes[p], s') && CrossOk(nodes, q)
    ensures CrossOk(nodes[p := s'], q)
  {
    var nodes' := nodes[p := s'];
    assert LedgerTrue(nodes', nodes[q].accepted);
    assert RowsTrue(nodes', q, nodes[q].ackHistory);
    assert SeqsTrue(nodes', nodes[q].seqHistory);
  }

  // ---------- packets are honest ----------

  /** An ack in flight fits the sender it is addressed to. */
  lemma AckFits(w: World, p: nat, a: AckMessage)
    requires Inv(w) && p in w.nodes && Packet(p, AckPayload(a)) in w.net
    ensures FittingAck(w.hosts, w.nodes[p], a)
  {
    hide RowsTrue, SeqsTrue, AckedOk, SelfOk, SeqsOk, DecisionsOk, QueueOk;
    assert PacketOk(w.nodes, Packet(p, AckPayload(a)));
    assert Local(w.hosts, w.nodes[a.proposer]) && CrossOk(w.nodes, a.proposer);
    assert Local(w.hosts, w.nodes[p]);
  }

  lemma NodeIsOk(w: World, p: nat)
    requires Inv(w) && p in w.nodes
    ensures Local(w.hosts, w.nodes[p]) && CrossOk(w.nodes, p) && w.nodes[p].id == p && w.nodes.Keys == w.hosts
  {
    hide Local, CrossOk, NetOk;
  }

  /** Counting: a decision needs a proposal from every host, so this one has made its own. */
  lemma DecisionHasAllProposals(w: World, d: SeqMessage, q: nat)
    requires Inv(w) && d.sender in w.nodes && d in w.nodes[d.sender].seqHistory && q in w.nodes
    ensures d.Key() in w.nodes[q].accepted
    ensures w.nodes[q].accepted[d.Key()].proposal <= d.finalSeq
  {
    hide Inv, Local, CrossOk, MaxProposal;
    NodeIsOk(w, d.sender);
    DecisionIsMax(w.hosts, w.nodes[d.sender], d);
    RowIsTrue(w.nodes, d.sender, d.msgId, q);
  }

  /** The row of a decision holds a proposal of every host, and the decision is the largest. */
  lemma DecisionIsMax(hosts: set<nat>, s: NodeState, d: SeqMessage)
    requires Local(hosts, s) && d in s.seqHistory && d.sender == s.id
    ensures d.msgId in s.ackHistory && s.ackHistory[d.msgId].Keys == hosts
    ensures MaxProposal(s.ackHistory[d.msgId]) == (d.finalSeq, d.finalSeqProposer)
    ensures var row := s.ackHistory[d.msgId];
            && d.finalSeqProposer in row && row[d.finalSeqProposer] == d.finalSeq
            && (forall h :: h in row ==> row[h] <= d.finalSeq)
            && (forall h :: h in row && row[h] == d.finalSeq ==> d.finalSeqProposer <= h)
  {
    hide AckedOk, SelfOk, ProposalsOk, SeqsOk, QueueOk, OrderOk, LearntOk, MaxProposal;
    var row := s.ackHistory[d.msgId];
    assert |row.Keys| == |row|;
    SubsetSize(row.Keys, hosts);
    MaxProposalIsMax(row);
  }

  lemma RowIsTrue(nodes: Nodes, p: nat, k: nat, h: nat)
    requires CrossOk(nodes, p) && k in nodes[p].ackHistory && h in nodes[p].ackHistory[k]
    ensures h in nodes && MsgKey(p, k) in nodes[h].accepted
    ensures nodes[h].accepted[MsgKey(p, k)].proposal == nodes[p].ackHistory[k][h]
  {
    hide LedgerTrue, SeqsTrue;
  }

  /** A sequence message in flight fits the process it is addressed to. */
  lemma SeqFits(w: World, p: nat, d: SeqMessage)
    requires Inv(w) && p in w.nodes && Packet(p, SeqPayload(d)) in w.net
    ensures FittingSeq(w.nodes[p], d)
  {
    assert PacketOk(w.nodes, Packet(p, SeqPayload(d)));
    DecisionHasAllProposals(w, d, p);
    DecisionIsUnique(w, d, p);
  }

  /** Two processes never know different decisions for one message. */
  lemma DecisionIsUnique(w: World, d: SeqMessage, p: nat)
    requires Inv(w) && d.sender in w.nodes && d in w.nodes[d.sender].seqHistory && p in w.nodes
    ensures forall d' :: d' in w.nodes[p].seqHistory && d'.Key() == d.Key() ==> d' == d
  {
    hide LedgerTrue, RowsTrue, AckedOk, SelfOk, DecisionsOk, QueueOk, NetOk, OwnOk, ProposalsOk;
    assert Local(w.hosts, w.nodes[d.sender]) && CrossOk(w.nodes, p);
  }

  // ---------- every step keeps the invariant ----------

  lemma StepKeepsLocal(w: World, p: nat, e: Event, s': NodeState, sent: set<Packet>)
    requires Inv(w) && p in w.nodes && Enabled(w, p, e) && NodeNext(w.hosts, w.nodes[p], e, s', sent)
    ensures Local(w.hosts, s') && Grows(w.nodes[p], s') && s'.id == p
  {
    hide Inv, Local, CrossOk, Grows, PacketOk, FittingAck, FittingSeq, DoMulticast, HandleData, HandleAck, HandleSeq,
      HandleDataTimeout;
    var s := w.nodes[p];
    NodeIsOk(w, p);
    if e.OnData? { DataFits(w, p, e.dataMessage); }
    NodeGrows(w.hosts, s, e, s', sent);
    match e
    case Multicast(data) => MulticastKeepsLocal(w.hosts, s, data, s', sent);
    case OnData(d) => DataKeepsLocal(w.hosts, s, d, s', sent);
    case OnAck(a) => AckFits(w, p, a); AckKeepsLocal(w.hosts, s, a, s', sent);
    case OnSeq(d) => SeqFits(w, p, d); SeqKeepsLocal(w.hosts, s, d, s', sent);
    case DataTimeout(k, h) => DataTimeoutKeepsState(w.hosts, s, k, h, s', sent);
    case AckTimeout(a) =>
  }

  /** The data watchdog always finds its entry. */
  lemma DataTimeoutKeepsState(hosts: set<nat>, s: NodeState, k: nat, h: nat, s': NodeState, sent: set<Packet>)
    requires Local(hosts, s) && HandleDataTimeout(hosts, s, k, h, s', sent)
    ensures s' == s
  {
    hide AckedOk, SelfOk, ProposalsOk, SeqsOk, DecisionsOk, QueueOk;
  }

  // Where the new records of a process come from.

  ghost predicate LedgerExplained(s: NodeState, e: Event, s': NodeState) {
    forall m :: m in s'.accepted && m !in s.accepted ==>
      || (m.sender == s.id && m.msgId in s'.dataHistory && s'.dataHistory[m.msgId] == s'.accepted[m].data)
      || (e.OnData? && m == e.dataMessage.Key() && s'.accepted[m].data == e.dataMessage.data)
  }

  ghost predicate RowsExplained(s: NodeState, e: Event, s': NodeState) {
    forall k, h :: k in s'.ackHistory && h in s'.ackHistory[k] ==>
      || (k in s.ackHistory && h in s.ackHistory[k] && s'.ackHistory[k][h] == s.ackHistory[k][h])
      || h == s.id
      || (e.OnAck? && k == e.ack.msgId && h == e.ack.proposer && s'.ackHistory[k][h] == e.ack.proposedSeq)
  }

  ghost predicate SeqsExplained(s: NodeState, e: Event, s': NodeState) {
    forall d :: d in s'.seqHistory ==> d in s.seqHistory || d.sender == s.id || (e.OnSeq? && d == e.final)
  }

  lemma NewRecords(hosts: set<nat>, s: NodeState, e: Event, s': NodeState, sent: set<Packet>)
    requires NodeNext(hosts, s, e, s', sent) && Grows(s, s')
    requires e.OnAck? ==> e.ack.sender == s.id && e.ack.msgId in s.ackHistory
    requires e.Multicast? ==> s.nextMsgId !in s.dataHistory
    ensures LedgerExplained(s, e, s') && SeqsExplained(s, e, s')
  {
    hide Grows, HandleData, HandleAck, HandleSeq, HandleDataTimeout, HandleAckTimeout;
    match e
    case Multicast(data) =>
    case OnData(d) => DataEffect(s, d, s', sent);
    case OnAck(a) => AckEffect(hosts, s, a, s', sent);
    case OnSeq(m) => SeqEffect(s, m, s', sent);
    case _ => TimeoutEffect(hosts, s, e, s', sent);
  }

  lemma NewRows(hosts: set<nat>, s: NodeState, e: Event, s': NodeState, sent: set<Packet>)
    requires NodeNext(hosts, s, e, s', sent)
    requires e.OnAck? ==> e.ack.msgId in s.ackHistory
    ensures RowsExplained(s, e, s')
  {
    hide HandleData, HandleAck, HandleSeq, HandleDataTimeout, HandleAckTimeout;
    match e
    case Multicast(data) =>
    case OnData(d) => DataEffect(s, d, s', sent);
    case OnAck(a) => AckEffect(hosts, s, a, s', sent);
    case OnSeq(m) => SeqEffect(s, m, s', sent);
    case _ => TimeoutEffect(hosts, s, e, s', sent);
  }

  lemma StepKeepsLedger(nodes: Nodes, p: nat, e: Event, s': NodeState)
    requires p in nodes && nodes[p].id == p && Grows(nodes[p], s') && LedgerTrue(nodes, nodes[p].accepted)
    requires LedgerExplained(nodes[p], e, s')
    requires e.OnData? ==> PacketOk(nodes, Packet(p, DataPayload(e.dataMessage)))
    ensures LedgerTrue(nodes[p := s'], s'.accepted)
  {
  }

  lemma StepKeepsRows(nodes: Nodes, p: nat, e: Event, s': NodeState)
    requires p in nodes && nodes[p].id == p && Grows(nodes[p], s') && RowsTrue(nodes, p, nodes[p].ackHistory)
    requires RowsExplained(nodes[p], e, s') && SelfOk(p, s'.ackHistory, s'.accepted)
    requires e.OnAck? ==> PacketOk(nodes, Packet(p, AckPayload(e.ack)))
    ensures RowsTrue(nodes[p := s'], p, s'.ackHistory)
  {
    var nodes' := nodes[p := s'];
    forall k, h | k in s'.ackHistory && h in s'.ackHistory[k]
      ensures h in nodes' && MsgKey(p, k) in nodes'[h].accepted
              && nodes'[h].accepted[MsgKey(p, k)].proposal == s'.ackHistory[k][h]
    {
      assert MsgKey(p, k).sender == p && MsgKey(p, k).msgId == k;
    }
  }

  lemma StepKeepsSeqs(nodes: Nodes, p: nat, e: Event, s': NodeState)
    requires p in nodes && nodes[p].id == p && Grows(nodes[p], s') && SeqsTrue(nodes, nodes[p].seqHistory)
    requires SeqsExplained(nodes[p], e, s')
    requires e.OnSeq? ==> PacketOk(nodes, Packet(p, SeqPayload(e.final)))
    ensures SeqsTrue(nodes[p := s'], s'.seqHistory)
  {
  }

  /** What a process puts on the network, judged by its own records. */
  ghost predicate Sends(hosts: set<nat>, s: NodeState, pkt: Packet) {
    && pkt.dst != s.id
    && match pkt.payload
       case DataPayload(d) =>
         && pkt.dst in hosts && d.sender == s.id && d.msgId in s.dataHistory && s.dataHistory[d.msgId] == d.data
       case AckPayload(a) =>
         && pkt.dst == a.sender && a.proposer == s.id
         && a.Key() in s.accepted && s.accepted[a.Key()].proposal == a.proposedSeq
       case SeqPayload(d) =>
         && pkt.dst in hosts && d.sender == s.id && d in s.seqHistory
  }

  lemma AckSends(hosts: set<nat>, s: NodeState, a: AckMessage, s': NodeState, sent: set<Packet>)
    requires HandleAck(hosts, s, a, s', sent) && FittingAck(hosts, s, a)
    ensures forall pkt :: pkt in sent ==> Sends(hosts, s', pkt)
  {
    hide FinalisedAndDelivered, MaxProposal, Row, WithAck;
  }

  lemma DataSends(hosts: set<nat>, s: NodeState, d: DataMessage, s': NodeState, sent: set<Packet>)
    requires AckedOk(s.id, s.acked, s.accepted) && HandleData(s, d, s', sent) && d.sender != s.id
    ensures forall pkt :: pkt in sent ==> Sends(hosts, s', pkt)
  {
  }

  lemma StepSends(hosts: set<nat>, s: NodeState, e: Event, s': NodeState, sent: set<Packet>)
    requires Local(hosts, s) && NodeNext(hosts, s, e, s', sent)
    requires e.OnAck? ==> FittingAck(hosts, s, e.ack)
    requires e.OnData? ==> e.dataMessage.sender != s.id
    requires e.Multicast? ==> s.nextMsgId !in s.dataHistory
    ensures forall pkt :: pkt in sent ==> Sends(hosts, s', pkt)
  {
    hide OwnOk, SelfOk, ProposalsOk, SeqsOk, DecisionsOk, QueueOk, OrderOk, LearntOk, HandleData, HandleAck, HandleSeq;
    match e
    case Multicast(data) =>
    case OnData(d) => DataSends(hosts, s, d, s', sent);
    case OnAck(a) => AckSends(hosts, s, a, s', sent);
    case OnSeq(m) => SeqEffect(s, m, s', sent);
    case DataTimeout(k, h) =>
    case AckTimeout(a) =>
  }

  lemma SentIsOk(hosts: set<nat>, nodes: Nodes, p: nat, pkt: Packet)
    requires p in nodes && nodes.Keys == hosts && nodes[p].id == p
    requires LedgerTrue(nodes, nodes[p].accepted) && Sends(hosts, nodes[p], pkt)
    ensures PacketOk(nodes, pkt)
  {
  }

  lemma StepKeepsNet(w: World, p: nat, s': NodeState, sent: set<Packet>)
    requires Inv(w) && p in w.nodes && s'.id == p && Grows(w.nodes[p], s')
    requires CrossOk(w.nodes[p := s'], p)
    requires forall pkt :: pkt in sent ==> Sends(w.hosts, s', pkt)
    ensures NetOk(w.nodes[p := s'], w.net + sent)
  {
    var nodes' := w.nodes[p := s'];
    assert nodes'.Keys == w.hosts;
    hide Grows, PacketOk, Sends, NodesOk, LedgerTrue, RowsTrue, SeqsTrue;
    forall pkt | pkt in w.net + sent ensures PacketOk(nodes', pkt) {
      if pkt in w.net {
        GrowthKeepsPacket(w.nodes, p, s', pkt);
      } else {
        SentIsOk(w.hosts, nodes', p, pkt);
      }
    }
  }

  lemma StepKeepsNodes(w: World, p: nat, s': NodeState)
    requires Inv(w) && p in w.nodes && s'.id == p && Grows(w.nodes[p], s')
    requires Local(w.hosts, s') && CrossOk(w.nodes[p := s'], p)
    ensures NodesOk(w.hosts, w.nodes[p := s'])
  {
    hide Grows, Local, NetOk, CrossOk;
    forall q | q in w.nodes && q != p ensures CrossOk(w.nodes[p := s'], q) {
      GrowthKeepsCross(w.nodes, p, s', q);
    }
  }

  lemma ActKeepsInv(w: World, p: nat, e: Event, s': NodeState, sent: set<Packet>)
    requires Inv(w) && p in w.nodes && Enabled(w, p, e) && NodeNext(w.hosts, w.nodes[p], e, s', sent)
    ensures NodesOk(w.hosts, w.nodes[p := s']) && NetOk(w.nodes[p := s'], w.net + sent)
  {
    hide Local, NodeNext, PacketOk, SelfOk, LedgerTrue, RowsTrue, SeqsTrue, Grows, LedgerExplained,
      RowsExplained, SeqsExplained;
    var s := w.nodes[p];
    if e.OnAck? { AckFits(w, p, e.ack); }
    if e.OnData? { DataFits(w, p, e.dataMessage); }
    StepKeepsLocal(w, p, e, s', sent);
    LocalSelf(w.hosts, s');
    OwnKeyIsNew(w.hosts, s);
    NewRecords(w.hosts, s, e, s', sent);
    NewRows(w.hosts, s, e, s', sent);
    StepKeepsLedger(w.nodes, p, e, s');
    StepKeepsRows(w.nodes, p, e, s');
    StepKeepsSeqs(w.nodes, p, e, s');
    StepSends(w.hosts, s, e, s', sent);
    StepKeepsNet(w, p, s', sent);
    StepKeepsNodes(w, p, s');
  }

  lemma LocalSelf(hosts: set<nat>, s: NodeState)
    requires Local(hosts, s)
    ensures SelfOk(s.id, s.ackHistory, s.accepted)
  {
  }

  lemma DataFits(w: World, p: nat, d: DataMessage)
    requires Inv(w) && p in w.nodes && Packet(p, DataPayload(d)) in w.net
    ensures d.sender != p
  {
    assert PacketOk(w.nodes, Packet(p, DataPayload(d)));
  }

  lemma StepKeepsInv(w: World, step: Step, w': World)
    requires Inv(w) && NextStep(w, step, w')
    ensures Inv(w')
  {
    hide NodesOk, NodeNext, PacketOk;
    match step
    case Lose(packet) =>
    case Act(p, e, sent) => ActKeepsInv(w, p, e, w'.nodes[p], sent);
  }

  lemma InitInv(w: World)
    requires Init(w)
    ensures Inv(w)
  {
    forall p | p in w.nodes ensures Local(w.hosts, w.nodes[p]) && CrossOk(w.nodes, p) {
      InitialLocal(w.hosts, p);
    }
  }

  /** The invariant holds in every state of every run. */
  lemma {:induction false} RunInv(run: seq<World>, i: nat)
    requires IsRun(run) && i < |run|
    ensures Inv(run[i])
  {
    if i == 0 {
      InitInv(run[0]);
    } else {
      RunInv(run, i - 1);
      assert Next(run[i - 1], run[i - 1 + 1]);
      var step :| NextStep(run[i - 1], step, run[i]);
      StepKeepsInv(run[i - 1], step, run[i]);
    }
  }

  lemma ReachableInv(w: World)
    requires Reachable(w)
    ensures Inv(w)
  {
    var run :| IsRun(run) && run[|run| - 1] == w;
    RunInv(run, |run| - 1);
  }
}
