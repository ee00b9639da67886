/** What holds in every run of the program as written: nothing fatal happens, every message
    is held exactly once, and each message has one final sequence number everywhere. */
module Agreement {
  import opened Messages
  import opened NodeSpec
  import opened NodeInvariant
  import opened Machine
  import opened Invariant
  import Recording

  // ---------- the fatal branches ----------

  /** No handler and no watchdog ever reaches the branch in which the program exits. */
  lemma NoProcessExits(run: seq<World>, i: nat, p: nat)
    requires IsRun(run) && i < |run| && p in run[i].nodes
    ensures !run[i].nodes[p].exited
  {
    RunInv(run, i);
    assert Local(run[i].hosts, run[i].nodes[p]);
  }

  /** Between steps nothing deliverable waits in front: an entry `x` that no other comes before has no
      final number yet, or stands under the same key as one that has none. */
  lemma FrontIsUndeliverable(run: seq<World>, i: nat, p: nat, x: QueuedMessage)
    requires IsRun(run) && i < |run| && p in run[i].nodes
    requires x in run[i].nodes[p].queue && forall y :: y in run[i].nodes[p].queue ==> !Cmp(x, y)
    ensures exists z :: z in run[i].nodes[p].queue && z.status.Undeliverable? && !Cmp(z, x) && !Cmp(x, z)
    ensures (forall y :: y in run[i].nodes[p].queue && y != x ==> Cmp(y, x)) ==> x.status.Undeliverable?
  {
    hide IsRun, Inv, Local, CrossOk;
    RunInv(run, i);
    NodeIsOk(run[i], p);
    QueueIsStopped(run[i].hosts, run[i].nodes[p]);
  }

  lemma QueueIsStopped(hosts: set<nat>, s: NodeState)
    requires Local(hosts, s)
    ensures Stopped(s.queue)
  {
    hide OwnOk, AckedOk, SelfOk, ProposalsOk, SeqsOk, DecisionsOk, OrderOk, LearntOk, Unique, EntriesOk, NothingLost;
  }

  // ---------- exactly once ----------

  /** Process `p` multicast `m` itself, or has acked it. */
  ghost predicate Took(s: NodeState, m: MsgKey) {
    || (m.sender == s.id && m.msgId in s.dataHistory)
    || (m.sender != s.id && exists a :: a in s.acked && a.Key() == m)
  }

  lemma TookIsAccepted(hosts: set<nat>, s: NodeState, m: MsgKey)
    requires Local(hosts, s)
    ensures Took(s, m) <==> m in s.accepted
  {
    hide ProposalsOk, SeqsOk, DecisionsOk, QueueOk;
    if m.sender != s.id {
      UnackedIsNew(s.id, s.acked, s.accepted, DataMessage(m.sender, m.msgId, 0));
      assert DataMessage(m.sender, m.msgId, 0).Key() == m;
    } else {
      assert m == MsgKey(s.id, m.msgId);
    }
  }

  /** Each message a process multicast or acked is held exactly once, in the queue or in the
      delivered list, with the data its sender gave it; and nothing else is held. */
  lemma ExactlyOnce(w: World, p: nat, m: MsgKey)
    requires Reachable(w) && p in w.nodes
    ensures Took(w.nodes[p], m) <==> Holds(All(w.nodes[p]), m)
    ensures forall x :: x in All(w.nodes[p]) && x.Key() == m ==>
              && All(w.nodes[p])[x] == 1
              && (forall y :: y in All(w.nodes[p]) && y.Key() == m ==> y == x)
              && m.sender in w.nodes && m.msgId in w.nodes[m.sender].dataHistory
              && w.nodes[m.sender].dataHistory[m.msgId] == x.data
  {
    ReachableInv(w);
    var s := w.nodes[p];
    assert Local(w.hosts, s) && CrossOk(w.nodes, p);
    TookIsAccepted(w.hosts, s, m);
    KeysAreKnown(s.id, s.accepted, s.seqHistory, All(s));
    forall x | x in All(s) && x.Key() == m
      ensures m in s.accepted && s.accepted[m].data == x.data
    {
      assert EntryOk(s.id, s.accepted, s.seqHistory, x);
    }
    hide OwnOk, AckedOk, SelfOk, ProposalsOk, SeqsOk, DecisionsOk, OrderOk, Stopped, EntriesOk, RowsTrue,
      SeqsTrue, Took;
  }

  // ---------- one final sequence number per message ----------

  /** The decision a deliverable entry stands for. */
  function Decision(x: QueuedMessage): SeqMessage {
    SeqMessage(x.sender, x.msgId, x.sequenceNumber, x.proposer)
  }

  /** `d` shows somewhere in the system: in flight, in a history, or on a deliverable entry. */
  ghost predicate Carried(w: World, d: SeqMessage) {
    || (exists q :: Packet(q, SeqPayload(d)) in w.net)
    || (exists q :: q in w.nodes && d in w.nodes[q].seqHistory)
    || (exists q, x :: q in w.nodes && x in All(w.nodes[q]) && x.status.Deliverable? && d == Decision(x))
  }

  /** `d` was taken by the sender of its message. */
  ghost predicate Decided(w: World, d: SeqMessage) {
    d.sender in w.nodes && d in w.nodes[d.sender].seqHistory
  }

  lemma CarriedIsDecided(w: World, d: SeqMessage)
    requires Inv(w) && Carried(w, d)
    ensures Decided(w, d)
  {
    if q :| Packet(q, SeqPayload(d)) in w.net {
      assert PacketOk(w.nodes, Packet(q, SeqPayload(d)));
    } else if q :| q in w.nodes && d in w.nodes[q].seqHistory {
      assert CrossOk(w.nodes, q);
    } else {
      var q, x :| q in w.nodes && x in All(w.nodes[q]) && x.status.Deliverable? && d == Decision(x);
      EntryIsDecided(w, q, x);
    }
  }

  lemma EntryIsDecided(w: World, q: nat, x: QueuedMessage)
    requires Inv(w) && q in w.nodes && x in All(w.nodes[q]) && x.status.Deliverable?
    ensures Decided(w, Decision(x))
  {
    hide OwnOk, AckedOk, SelfOk, ProposalsOk, SeqsOk, DecisionsOk, OrderOk, Stopped, RowsTrue, LedgerTrue,
      NetOk, Unique;
    var s := w.nodes[q];
    assert Local(w.hosts, s) && CrossOk(w.nodes, q);
    assert EntryOk(s.id, s.accepted, s.seqHistory, x);
  }

  /** What a decision is: the largest of the proposals of all the hosts, credited to the
      smallest host that made it. The order and the number of acks do not enter. */
  ghost predicate IsMaxOfProposals(w: World, d: SeqMessage) {
    && (forall h :: h in w.nodes ==> d.Key() in w.nodes[h].accepted)
    && d.finalSeqProposer in w.nodes
    && w.nodes[d.finalSeqProposer].accepted[d.Key()].proposal == d.finalSeq
    && (forall h :: h in w.nodes ==> w.nodes[h].accepted[d.Key()].proposal <= d.finalSeq)
    && (forall h :: h in w.nodes && w.nodes[h].accepted[d.Key()].proposal == d.finalSeq ==> d.finalSeqProposer <= h)
  }

  lemma DecidedIsMax(w: World, d: SeqMessage)
    requires Inv(w) && Decided(w, d)
    ensures IsMaxOfProposals(w, d)
  {
    hide Inv, Local, CrossOk, MaxProposal;
    NodeIsOk(w, d.sender);
    DecisionIsMax(w.hosts, w.nodes[d.sender], d);
    forall h | h in w.nodes
      ensures MsgKey(d.sender, d.msgId) in w.nodes[h].accepted
      ensures w.nodes[h].accepted[MsgKey(d.sender, d.msgId)].proposal == w.nodes[d.sender].ackHistory[d.msgId][h]
    {
      RowIsTrue(w.nodes, d.sender, d.msgId, h);
    }
  }

  lemma DecidedOnce(w: World, d: SeqMessage, d': SeqMessage)
    requires Inv(w) && Decided(w, d) && Decided(w, d') && d.Key() == d'.Key()
    ensures d == d'
  {
    DecisionIsUnique(w, d, d.sender);
  }

  // ---------- histories along a run ----------

  ghost predicate Later(w: World, w': World) {
    && w'.nodes.Keys == w.nodes.Keys
    && forall p :: p in w.nodes ==> Grows(w.nodes[p], w'.nodes[p]) && w.nodes[p].delivered <= w'.nodes[p].delivered
  }

  lemma StepIsLater(w: World, step: Step, w': World)
    requires Inv(w) && NextStep(w, step, w')
    ensures Later(w, w')
  {
    hide Inv, NodeNext, Enabled, Grows;
    forall q | q in w.nodes ensures Grows(w.nodes[q], w.nodes[q]) { SameGrows(w.nodes[q]); }
    if step.Act? {
      var p, e, sent := step.p, step.event, step.sent;
      ActGrows(w, p, e, w'.nodes[p], sent);
    }
  }

  lemma SameGrows(s: NodeState)
    ensures Grows(s, s)
  {
  }

  lemma ActGrows(w: World, p: nat, e: Event, s': NodeState, sent: set<Packet>)
    requires Inv(w) && p in w.nodes && Enabled(w, p, e) && NodeNext(w.hosts, w.nodes[p], e, s', sent)
    ensures Grows(w.nodes[p], s') && w.nodes[p].delivered <= s'.delivered
  {
    hide Inv, NodeNext, Enabled, Grows, Local;
    StepKeepsLocal(w, p, e, s', sent);
    DeliveredGrows(w.hosts, w.nodes[p], e, s', sent);
  }

  lemma DeliveredGrows(hosts: set<nat>, s: NodeState, e: Event, s': NodeState, sent: set<Packet>)
    requires NodeNext(hosts, s, e, s', sent)
    ensures s.delivered <= s'.delivered
  {
    hide Rekeyed, Drains;
  }

  lemma {:induction false} RunIsLater(run: seq<World>, i: nat, j: nat)
    requires IsRun(run) && i <= j < |run|
    ensures Later(run[i], run[j])
    decreases j
  {
    if i == j {
      hide IsRun;
    } else {
      RunIsLater(run, i, j - 1);
      RunInv(run, j - 1);
      assert Next(run[j - 1], run[j - 1 + 1]);
      var step :| NextStep(run[j - 1], step, run[j]);
      hide IsRun, Inv, NextStep, Next;
      StepIsLater(run[j - 1], step, run[j]);
      LaterTrans(run[i], run[j - 1], run[j]);
    }
  }

  lemma LaterTrans(w0: World, w1: World, w2: World)
    requires Later(w0, w1) && Later(w1, w2)
    ensures Later(w0, w2)
  {
    forall p | p in w0.nodes ensures Grows(w0.nodes[p], w2.nodes[p]) && w0.nodes[p].delivered <= w2.nodes[p].delivered {
      assert Grows(w0.nodes[p], w1.nodes[p]);
      assert Grows(w1.nodes[p], w2.nodes[p]);
    }
  }

  /** In a whole run at most one (final number, proposer) shows for a message: in packets, in
      histories, on deliverable and delivered entries, at any process and at any time. It is
      the maximum of the proposals of all the hosts, credited to the smallest that made it. */
  lemma AgreementOnFinals(run: seq<World>, i: nat, j: nat, d: SeqMessage, d': SeqMessage)
    requires IsRun(run) && i <= j < |run|
    requires Carried(run[i], d) && Carried(run[j], d') && d.Key() == d'.Key()
    ensures d == d' && IsMaxOfProposals(run[i], d)
  {
    RunInv(run, i);
    RunInv(run, j);
    RunIsLater(run, i, j);
    hide Inv, IsRun, Carried, IsMaxOfProposals;
    CarriedIsDecided(run[i], d);
    CarriedIsDecided(run[j], d');
    assert Grows(run[i].nodes[d.sender], run[j].nodes[d.sender]);
    DecidedOnce(run[j], d, d');
    DecidedIsMax(run[i], d);
  }

  /** All acks a process ever sends for a message carry the same number. */
  lemma AcksNeverDiffer(run: seq<World>, i: nat, j: nat, q: nat, q': nat, a: AckMessage, a': AckMessage)
    requires IsRun(run) && i <= j < |run|
    requires Packet(q, AckPayload(a)) in run[i].net && Packet(q', AckPayload(a')) in run[j].net
    requires a.Key() == a'.Key() && a.proposer == a'.proposer
    ensures a == a'
  {
    RunInv(run, i);
    RunInv(run, j);
    RunIsLater(run, i, j);
    assert PacketOk(run[i].nodes, Packet(q, AckPayload(a)));
    assert PacketOk(run[j].nodes, Packet(q', AckPayload(a')));
    assert Grows(run[i].nodes[a.proposer], run[j].nodes[a.proposer]);
  }

  /** Every packet a process sends, in any run, is one that the snapshot files under that process. */
  lemma PacketsNameTheirSender(run: seq<World>, i: nat, p: nat, e: Event, sent: set<Packet>, w': World, pkt: Packet)
    requires IsRun(run) && i < |run| && NextStep(run[i], Act(p, e, sent), w') && pkt in sent
    ensures Recording.Source(pkt.payload) == p
  {
    hide IsRun, Inv, Local, NodeNext, FittingAck;
    RunInv(run, i);
    var w := run[i];
    NodeIsOk(w, p);
    OwnKeyIsNew(w.hosts, w.nodes[p]);
    if e.OnAck? { AckFits(w, p, e.ack); }
    if e.OnData? { DataFits(w, p, e.dataMessage); }
    StepKeepsLocal(w, p, e, w'.nodes[p], sent);
    StepSends(w.hosts, w.nodes[p], e, w'.nodes[p], sent);
    assert Sends(w.hosts, w'.nodes[p], pkt);
  }
}
