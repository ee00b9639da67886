/** For each event a successor state that the handlers allow, written as a function. */
module Moves {
  import opened Messages
  import opened NodeSpec

  function Multicasting(s: NodeState, data: nat): NodeState {
    var k, c := s.nextMsgId, s.clock + 1;
    s.(nextMsgId := k + 1,
       dataHistory := Inserted(s.dataHistory, k, data),
       clock := c,
       ackHistory := Inserted(s.ackHistory, k, map[s.id := c]),
       queue := s.queue + multiset{QueuedMessage(c, Undeliverable, s.id, k, data, s.id)},
       accepted := s.accepted[MsgKey(s.id, k) := Acceptance(c, |s.delivered|, data)])
  }

  function AckFor(s: NodeState, d: DataMessage): AckMessage {
    AckMessage(d.sender, d.msgId, s.clock, s.id)
  }

  function TakingIn(s: NodeState, d: DataMessage): NodeState {
    s.(queue := s.queue + multiset{QueuedMessage(s.clock, Undeliverable, d.sender, d.msgId, d.data, s.id)},
       acked := s.acked + {AckFor(s, d)},
       clock := s.clock + 1,
       accepted := s.accepted[d.Key() := Acceptance(s.clock, |s.delivered|, d.data)])
  }

  function Collecting(s: NodeState, a: AckMessage): NodeState {
    s.(clock := s.clock + 1,
       ackHistory := s.ackHistory[a.msgId := WithAck(Row(s, a.msgId), a.proposer, a.proposedSeq)])
  }

  /** The queue and the delivered list after finalising a message are given. */
  function Deciding(s: NodeState, a: AckMessage, final: SeqMessage,
                    q': multiset<QueuedMessage>, delivered': seq<QueuedMessage>): NodeState {
    Collecting(s, a).(seqHistory := s.seqHistory + {final}, queue := q', delivered := delivered',
                      learnt := Noted(s.learnt, a.Key(), |s.delivered|))
  }

  function Learning(s: NodeState, m: SeqMessage,
                    q': multiset<QueuedMessage>, delivered': seq<QueuedMessage>): NodeState {
    s.(seqHistory := s.seqHistory + {m}, queue := q', delivered := delivered',
       learnt := Noted(s.learnt, m.Key(), |s.delivered|))
  }

  /** `Multicasting`, field by field. */
  lemma MulticastingIs(s: NodeState, s': NodeState, data: nat)
    requires s'.clock == s.clock + 1 && s'.nextMsgId == s.nextMsgId + 1
    requires s'.dataHistory == Inserted(s.dataHistory, s.nextMsgId, data)
    requires s'.ackHistory == Inserted(s.ackHistory, s.nextMsgId, map[s.id := s.clock + 1])
    requires s'.queue == s.queue + multiset{QueuedMessage(s.clock + 1, Undeliverable, s.id, s.nextMsgId, data, s.id)}
    requires s'.accepted
             == s.accepted[MsgKey(s.id, s.nextMsgId) := Acceptance(s.clock + 1, |s.delivered|, data)]
    requires s'.id == s.id && s'.delivered == s.delivered && s'.acked == s.acked && s'.seqHistory == s.seqHistory
    requires s'.exited == s.exited && s'.learnt == s.learnt
    ensures s' == Multicasting(s, data)
  {
    hide Inserted;
  }

  lemma CanMulticast(hosts: set<nat>, s: NodeState, data: nat)
    requires !s.exited
    ensures NodeNext(hosts, s, Multicast(data), Multicasting(s, data),
                     Others(hosts, s.id, DataPayload(DataMessage(s.id, s.nextMsgId, data))))
  {
    hide Others;
  }

  lemma CanTakeIn(hosts: set<nat>, s: NodeState, d: DataMessage)
    requires !s.exited && forall a :: a in s.acked ==> a.Key() != d.Key()
    ensures NodeNext(hosts, s, OnData(d), TakingIn(s, d), {Packet(d.sender, AckPayload(AckFor(s, d)))})
  {
  }

  lemma CanAnswer(hosts: set<nat>, s: NodeState, d: DataMessage, a: AckMessage)
    requires !s.exited && a in s.acked && a.Key() == d.Key()
    ensures NodeNext(hosts, s, OnData(d), s, {Packet(d.sender, AckPayload(a))})
  {
  }

  lemma CanCollect(hosts: set<nat>, s: NodeState, a: AckMessage)
    requires !s.exited && a.proposer !in Row(s, a.msgId)
    requires |WithAck(Row(s, a.msgId), a.proposer, a.proposedSeq)| != |hosts|
    ensures NodeNext(hosts, s, OnAck(a), Collecting(s, a), {})
  {
    hide Row, WithAck;
  }

  /** An ack that changes nothing: unanswered while the row is incomplete. */
  lemma CanIgnore(hosts: set<nat>, s: NodeState, a: AckMessage)
    requires !s.exited && a.proposer in Row(s, a.msgId) && |Row(s, a.msgId)| != |hosts|
    ensures NodeNext(hosts, s, OnAck(a), s, {})
  {
    hide Row;
  }

  /** A late ack is answered with the decision, or ends the program if that is nowhere to be found. */
  lemma CanRepeat(hosts: set<nat>, s: NodeState, a: AckMessage, m: SeqMessage)
    requires !s.exited && a.proposer in Row(s, a.msgId) && |Row(s, a.msgId)| == |hosts|
    requires m in s.seqHistory && m.Key() == a.Key()
    ensures NodeNext(hosts, s, OnAck(a), s, {Packet(a.proposer, SeqPayload(m))})
  {
    hide Row;
  }

  lemma CanExitOnAck(hosts: set<nat>, s: NodeState, a: AckMessage)
    requires !s.exited && a.proposer in Row(s, a.msgId) && |Row(s, a.msgId)| == |hosts|
    requires forall m :: m in s.seqHistory ==> m.Key() != a.Key()
    ensures NodeNext(hosts, s, OnAck(a), s.(exited := true), {})
  {
    hide Row;
  }

  lemma CanDecide(hosts: set<nat>, s: NodeState, a: AckMessage, final: SeqMessage,
                  q': multiset<QueuedMessage>, delivered': seq<QueuedMessage>)
    requires !s.exited && a.proposer !in Row(s, a.msgId)
    requires var row := WithAck(Row(s, a.msgId), a.proposer, a.proposedSeq);
             |row| == |hosts| && final == SeqMessage(a.sender, a.msgId, MaxProposal(row).0, MaxProposal(row).1)
    requires FinalisedAndDelivered(s.queue, s.delivered, a.Key(), final.finalSeq, final.finalSeqProposer,
                                   q', delivered')
    ensures NodeNext(hosts, s, OnAck(a), Deciding(s, a, final, q', delivered'), Others(hosts, s.id, SeqPayload(final)))
  {
    hide Row, WithAck, MaxProposal, FinalisedAndDelivered, Others;
  }

  lemma CanLearn(hosts: set<nat>, s: NodeState, m: SeqMessage,
                 q': multiset<QueuedMessage>, delivered': seq<QueuedMessage>)
    requires !s.exited && exists x :: x in s.queue && x.Key() == m.Key()
    requires FinalisedAndDelivered(s.queue, s.delivered, m.Key(), m.finalSeq, m.finalSeqProposer, q', delivered')
    ensures NodeNext(hosts, s, OnSeq(m), Learning(s, m, q', delivered'), {})
  {
    hide FinalisedAndDelivered;
  }

  /** A sequence message whose message is not queued is ignored if it has been delivered, and ends
      the program otherwise. */
  lemma CanPassOver(hosts: set<nat>, s: NodeState, m: SeqMessage)
    requires !s.exited && forall x :: x in s.queue ==> x.Key() != m.Key()
    ensures var known := exists i :: 0 <= i < |s.delivered| && s.delivered[i].Key() == m.Key();
            NodeNext(hosts, s, OnSeq(m), if known then s else s.(exited := true), {})
  {
  }

  /** Replacing the entry `x`, then draining `out`. */
  lemma Finalising(s: NodeState, x: QueuedMessage, rest: multiset<QueuedMessage>, f: nat, fp: nat,
                   out: seq<QueuedMessage>, q': multiset<QueuedMessage>)
    requires s.queue == rest + multiset{x}
    requires Drains(rest + multiset{x.Finalised(f, fp)}, out, q')
    ensures FinalisedAndDelivered(s.queue, s.delivered, x.Key(), f, fp, q', s.delivered + out)
  {
    hide Drains;
    Swap(rest, x, x.Finalised(f, fp));
    var q1 := rest + multiset{x.Finalised(f, fp)};
    assert Rekeyed(s.queue, x.Key(), f, fp, q1);
  }

  lemma Swap(rest: multiset<QueuedMessage>, x: QueuedMessage, y: QueuedMessage)
    ensures rest + multiset{x} - multiset{x} + multiset{y} == rest + multiset{y}
    ensures x in rest + multiset{x}
  {
  }
}
