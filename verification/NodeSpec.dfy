/** What one process does with one event, as a relation between its state before,
    its state after and the packets it hands to the network. */
module NodeSpec {
  import opened Messages

  /** History of the moment a process took a message in: the number it proposed, how many
      messages it had delivered by then, and the message's data. The program keeps no such
      record; nothing below reads it to decide what to do. */
  datatype Acceptance = Acceptance(proposal: nat, deliveredBefore: nat, data: nat)

  type Ledger = map<MsgKey, Acceptance>

  /** History of how many messages a process had delivered when it learnt a final number. */
  type Learnt = map<MsgKey, nat>

  function Noted(learnt: Learnt, key: MsgKey, n: nat): Learnt {
    if key in learnt then learnt else learnt[key := n]
  }

  datatype NodeState = NodeState(
    id: nat,
    clock: nat,
    nextMsgId: nat,
    queue: multiset<QueuedMessage>,
    delivered: seq<QueuedMessage>,
    acked: set<AckMessage>,
    seqHistory: set<SeqMessage>,
    ackHistory: map<nat, map<nat, nat>>,
    dataHistory: map<nat, nat>,
    exited: bool,
    accepted: Ledger,
    learnt: Learnt)

  function InitialNode(id: nat): NodeState {
    NodeState(id, 1, 0, multiset{}, [], {}, {}, map[], map[], false, map[], map[])
  }

  /** Everything that can happen to a process. A `Timeout` is a watchdog waking up. */
  datatype Event =
    | Multicast(data: nat)
    | OnData(dataMessage: DataMessage)
    | OnAck(ack: AckMessage)
    | OnSeq(final: SeqMessage)
    | DataTimeout(msgId: nat, host: nat)
    | AckTimeout(pending: AckMessage)

  // ---------- the decision ----------

  ghost function LargestKey(keys: set<nat>): (k: nat)
    requires keys != {}
    ensures k in keys && forall j :: j in keys ==> j <= k
  {
    var j :| j in keys;
    var rest := keys - {j};
    assert forall i :: i in keys ==> i == j || i in rest;
    if rest == {} then j
    else
      var k := LargestKey(rest);
      if j <= k then k else j
  }

  /** The running maximum of the proposals, taken over the proposers in ascending order
      and replaced only by a strictly larger number. */
  ghost function MaxProposal(row: map<nat, nat>): (nat, nat)
    decreases |row|
  {
    if row == map[] then (0, 0)
    else
      var k := LargestKey(row.Keys);
      assert |row - {k}| < |row| by {
        assert (row - {k}).Keys == row.Keys - {k};
        assert |(row - {k}).Keys| == |row - {k}|;
      }
      var best := MaxProposal(row - {k});
      if row[k] > best.0 then (row[k], k) else best
  }

  /** The decided number is the largest proposal, credited to its smallest proposer. */
  lemma {:induction false} MaxProposalIsMax(row: map<nat, nat>)
    requires row != map[]
    requires forall h :: h in row ==> row[h] >= 1
    ensures MaxProposal(row).1 in row && row[MaxProposal(row).1] == MaxProposal(row).0
    ensures forall h :: h in row ==> row[h] <= MaxProposal(row).0
    ensures forall h :: h in row && row[h] == MaxProposal(row).0 ==> MaxProposal(row).1 <= h
    decreases |row|
  {
    var k := LargestKey(row.Keys);
    var rest := row - {k};
    assert rest.Keys == row.Keys - {k};
    assert |rest.Keys| == |rest|;
    if rest == map[] {
      assert row.Keys == {k};
    } else {
      MaxProposalIsMax(rest);
      assert forall h :: h in row ==> h == k || (h in rest && rest[h] == row[h]);
    }
  }

  // ---------- the delivery queue ----------

  /** Giving the entry for `key` its final number; the queue is unchanged when it has none. */
  ghost predicate Rekeyed(q: multiset<QueuedMessage>, key: MsgKey, finalSeq: nat, finalProposer: nat,
                          q': multiset<QueuedMessage>)
  {
    if exists x :: x in q && x.Key() == key then
      exists x :: x in q && x.Key() == key
               && q' == q - multiset{x} + multiset{x.Finalised(finalSeq, finalProposer)}
    else
      q' == q
  }

  /** The entry at the front, if any, is not deliverable. Among equal keys any may be in front. */
  ghost predicate Stopped(q: multiset<QueuedMessage>) {
    q == multiset{} ||
    exists x :: x in q && x.status.Undeliverable? && forall y :: y in q ==> !Cmp(x, y)
  }

  /** `out` has been popped off the front of `q`, entry by entry, leaving `rest`. */
  ghost predicate Popped(q: multiset<QueuedMessage>, out: seq<QueuedMessage>, rest: multiset<QueuedMessage>) {
    && q == multiset(out) + rest
    && (forall i :: 0 <= i < |out| ==> out[i].status.Deliverable?)
    && (forall i, j :: 0 <= i < j < |out| ==> !Cmp(out[i], out[j]))
    && (forall i, y :: 0 <= i < |out| && y in rest ==> !Cmp(out[i], y))
  }

  /** Popping deliverable entries off the front, as long as there are any, appends `out`. */
  ghost predicate Drains(q: multiset<QueuedMessage>, out: seq<QueuedMessage>, q': multiset<QueuedMessage>) {
    Popped(q, out, q') && Stopped(q')
  }

  ghost predicate FinalisedAndDelivered(q: multiset<QueuedMessage>, delivered: seq<QueuedMessage>,
                                        key: MsgKey, finalSeq: nat, finalProposer: nat,
                                        q': multiset<QueuedMessage>, delivered': seq<QueuedMessage>)
  {
    exists q1, out ::
      && Rekeyed(q, key, finalSeq, finalProposer, q1)
      && Drains(q1, out, q')
      && delivered' == delivered + out
  }

  // ---------- the handlers ----------

  function Others(hosts: set<nat>, id: nat, payload: Payload): set<Packet> {
    set h | h in hosts && h != id :: Packet(h, payload)
  }

  /** `insert` of an ordered map: an entry that exists stays. */
  function Inserted<V>(m: map<nat, V>, k: nat, v: V): map<nat, V> {
    if k in m then m else m[k := v]
  }

  ghost predicate DoMulticast(hosts: set<nat>, s: NodeState, data: nat, s': NodeState, sent: set<Packet>) {
    var k := s.nextMsgId;
    var c := s.clock + 1;
    && s' == s.(nextMsgId := k + 1,
                dataHistory := Inserted(s.dataHistory, k, data),
                clock := c,
                ackHistory := Inserted(s.ackHistory, k, map[s.id := c]),
                queue := s.queue + multiset{QueuedMessage(c, Undeliverable, s.id, k, data, s.id)},
                accepted := s.accepted[MsgKey(s.id, k) := Acceptance(c, |s.delivered|, data)])
    && sent == Others(hosts, s.id, DataPayload(DataMessage(s.id, k, data)))
  }

  ghost predicate HandleData(s: NodeState, d: DataMessage, s': NodeState, sent: set<Packet>) {
    if exists a :: a in s.acked && a.Key() == d.Key() then
      && s' == s
      && exists a :: a in s.acked && a.Key() == d.Key() && sent == {Packet(d.sender, AckPayload(a))}
    else
      var a := AckMessage(d.sender, d.msgId, s.clock, s.id);
      && s' == s.(queue := s.queue + multiset{QueuedMessage(s.clock, Undeliverable, d.sender, d.msgId, d.data, s.id)},
                  acked := s.acked + {a},
                  clock := s.clock + 1,
                  accepted := s.accepted[d.Key() := Acceptance(s.clock, |s.delivered|, d.data)])
      && sent == {Packet(d.sender, AckPayload(a))}
  }

  /** The acks collected for a message; looking one up creates an empty entry. */
  function Row(s: NodeState, msgId: nat): map<nat, nat> {
    if msgId in s.ackHistory then s.ackHistory[msgId] else map[]
  }

  function WithAck(row: map<nat, nat>, proposer: nat, proposedSeq: nat): map<nat, nat> {
    row[proposer := proposedSeq]
  }

  ghost predicate HandleAck(hosts: set<nat>, s: NodeState, a: AckMessage, s': NodeState, sent: set<Packet>) {
    var row := Row(s, a.msgId);
    if a.proposer !in row then
      var row' := WithAck(row, a.proposer, a.proposedSeq);
      var s1 := s.(clock := s.clock + 1, ackHistory := s.ackHistory[a.msgId := row']);
      if |row'| == |hosts| then
        var (f, fp) := MaxProposal(row');
        var final := SeqMessage(a.sender, a.msgId, f, fp);
        && s' == s1.(seqHistory := s.seqHistory + {final}, queue := s'.queue, delivered := s'.delivered,
                     learnt := Noted(s.learnt, a.Key(), |s.delivered|))
        && FinalisedAndDelivered(s.queue, s.delivered, a.Key(), f, fp, s'.queue, s'.delivered)
        && sent == Others(hosts, s.id, SeqPayload(final))
      else
        s' == s1 && sent == {}
    else if |row| == |hosts| then
      if exists m :: m in s.seqHistory && m.Key() == a.Key() then
        && s' == s
        && exists m :: m in s.seqHistory && m.Key() == a.Key() && sent == {Packet(a.proposer, SeqPayload(m))}
      else
        s' == s.(exited := true) && sent == {}
    else
      s' == s && sent == {}
  }

  ghost predicate HandleSeq(s: NodeState, m: SeqMessage, s': NodeState, sent: set<Packet>) {
    && sent == {}
    && if exists x :: x in s.queue && x.Key() == m.Key() then
         && s' == s.(seqHistory := s.seqHistory + {m}, queue := s'.queue, delivered := s'.delivered,
                     learnt := Noted(s.learnt, m.Key(), |s.delivered|))
         && FinalisedAndDelivered(s.queue, s.delivered, m.Key(), m.finalSeq, m.finalSeqProposer, s'.queue, s'.delivered)
       else if exists i :: 0 <= i < |s.delivered| && s.delivered[i].Key() == m.Key() then
         s' == s
       else
         s' == s.(exited := true)
  }

  /** One watchdog runs for every message this process multicast and every other host. */
  ghost predicate HandleDataTimeout(hosts: set<nat>, s: NodeState, k: nat, h: nat, s': NodeState, sent: set<Packet>) {
    && k in s.dataHistory && h in hosts && h != s.id
    && if k !in s.ackHistory then s' == s.(exited := true) && sent == {}
       else && s' == s
            && sent == if h in s.ackHistory[k] then {}
                       else {Packet(h, DataPayload(DataMessage(s.id, k, s.dataHistory[k])))}
  }

  /** One watchdog runs for every ack this process has sent. */
  ghost predicate HandleAckTimeout(s: NodeState, a: AckMessage, s': NodeState, sent: set<Packet>) {
    && a in s.acked
    && s' == s
    && sent == if exists m :: m in s.seqHistory && m.Key() == a.Key() then {}
               else {Packet(a.sender, AckPayload(a))}
  }

  ghost predicate NodeNext(hosts: set<nat>, s: NodeState, e: Event, s': NodeState, sent: set<Packet>) {
    && !s.exited
    && match e {
      case Multicast(data) => DoMulticast(hosts, s, data, s', sent)
      case OnData(d) => HandleData(s, d, s', sent)
      case OnAck(a) => HandleAck(hosts, s, a, s', sent)
      case OnSeq(m) => HandleSeq(s, m, s', sent)
      case DataTimeout(k, h) => HandleDataTimeout(hosts, s, k, h, s', sent)
      case AckTimeout(a) => HandleAckTimeout(s, a, s', sent)
    }
  }
}
