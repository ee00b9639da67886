/** Whatever has been lost, resending and receiving can always finish the job. */
module Progress {
  import opened Messages
  import opened NodeSpec
  import opened NodeInvariant
  import opened Machine
  import opened Invariant
  import opened Agreement
  import opened Moves
  import opened TotalOrder
  import opened PrefixOrder

  // ---------- the measure ----------

  function Multicasts(w: World): set<MsgKey> {
    set p, k | p in w.nodes && k in w.nodes[p].ackHistory :: MsgKey(p, k)
  }

  ghost predicate AckMissing(w: World, m: MsgKey, h: nat) {
    m.sender in w.nodes && h !in Row(w.nodes[m.sender], m.msgId)
  }

  ghost predicate FinalMissing(w: World, m: MsgKey, h: nat) {
    h in w.nodes && Undecided(w.nodes[h].seqHistory, m)
  }

  /** The acks senders still wait for, and the final numbers hosts still wait for. */
  ghost function MissingAcks(w: World): set<(MsgKey, nat)> {
    set m, h | m in Multicasts(w) && h in w.hosts && AckMissing(w, m, h) :: (m, h)
  }

  ghost function MissingFinals(w: World): set<(MsgKey, nat)> {
    set m, h | m in Multicasts(w) && h in w.hosts && FinalMissing(w, m, h) :: (m, h)
  }

  ghost function Measure(w: World): nat {
    |MissingAcks(w)| + |MissingFinals(w)|
  }

  // ---------- existence of a successor ----------

  lemma {:induction false} Smallest(q: multiset<QueuedMessage>) returns (x: QueuedMessage)
    requires q != multiset{}
    ensures x in q && forall y :: y in q ==> !Cmp(x, y)
    decreases |q|
  {
    x :| x in q;
    var rest := q - multiset{x};
    assert forall y :: y in q ==> y == x || y in rest;
    if rest != multiset{} {
      var z := Smallest(rest);
      if Cmp(x, z) { x := z; }
    }
  }

  /** The delivery loop always has a result. */
  lemma {:induction false} CanDrain(q: multiset<QueuedMessage>)
    returns (out: seq<QueuedMessage>, q': multiset<QueuedMessage>)
    ensures Drains(q, out, q')
    decreases |q|
  {
    if Stopped(q) {
      out, q' := [], q;
    } else {
      var x := Smallest(q);
      var rest := q - multiset{x};
      var tail, r := CanDrain(rest);
      out, q' := [x] + tail, r;
      DrainOne(q, x, tail, q');
    }
  }

  lemma DrainOne(q: multiset<QueuedMessage>, x: QueuedMessage, tail: seq<QueuedMessage>, q': multiset<QueuedMessage>)
    requires x in q && (forall y :: y in q ==> !Cmp(x, y)) && x.status.Deliverable?
    requires Drains(q - multiset{x}, tail, q')
    ensures Drains(q, [x] + tail, q')
  {
    hide Stopped, Cmp;
    PrependTotal(q, x, tail, q');
    forall i | 0 <= i < |tail| ensures tail[i] in q {
      assert tail[i] in multiset(tail);
    }
    PrependOrder(x, tail);
    assert forall y :: y in q' ==> y in q;
    PrependBelow(x, tail, q');
  }

  lemma PrependOrder(x: QueuedMessage, tail: seq<QueuedMessage>)
    requires forall i :: 0 <= i < |tail| ==> !Cmp(x, tail[i])
    requires forall i, j :: 0 <= i < j < |tail| ==> !Cmp(tail[i], tail[j])
    ensures forall i, j :: 0 <= i < j < |[x] + tail| ==> !Cmp(([x] + tail)[i], ([x] + tail)[j])
  {
    hide Cmp;
    var out := [x] + tail;
    assert forall i :: 0 < i < |out| ==> out[i] == tail[i - 1];
  }

  lemma PrependBelow(x: QueuedMessage, tail: seq<QueuedMessage>, rest: multiset<QueuedMessage>)
    requires forall y :: y in rest ==> !Cmp(x, y)
    requires forall i, y :: 0 <= i < |tail| && y in rest ==> !Cmp(tail[i], y)
    ensures forall i, y :: 0 <= i < |[x] + tail| && y in rest ==> !Cmp(([x] + tail)[i], y)
  {
    hide Cmp;
  }

  lemma PrependTotal(q: multiset<QueuedMessage>, x: QueuedMessage, tail: seq<QueuedMessage>,
                     q': multiset<QueuedMessage>)
    requires x in q && q - multiset{x} == multiset(tail) + q'
    ensures q == multiset([x] + tail) + q'
  {
    assert multiset([x] + tail) == multiset{x} + multiset(tail);
    assert q == q - multiset{x} + multiset{x};
  }

  lemma CanFinalise(s: NodeState, m: MsgKey, f: nat, fp: nat)
    returns (q': multiset<QueuedMessage>, d': seq<QueuedMessage>)
    ensures FinalisedAndDelivered(s.queue, s.delivered, m, f, fp, q', d')
  {
    hide Drains;
    var q1 := s.queue;
    if Holds(s.queue, m) {
      var x :| x in s.queue && x.Key() == m;
      q1 := s.queue - multiset{x} + multiset{x.Finalised(f, fp)};
    }
    assert Rekeyed(s.queue, m, f, fp, q1);
    var out, q2 := CanDrain(q1);
    q', d' := q2, s.delivered + out;
  }

  lemma CanHandleAck(hosts: set<nat>, s: NodeState, a: AckMessage) returns (s': NodeState, sent: set<Packet>)
    ensures HandleAck(hosts, s, a, s', sent)
  {
    hide FinalisedAndDelivered, MaxProposal, Row, WithAck;
    var row := Row(s, a.msgId);
    var row' := WithAck(row, a.proposer, a.proposedSeq);
    if a.proposer !in row && |row'| == |hosts| {
      var final := SeqMessage(a.sender, a.msgId, MaxProposal(row').0, MaxProposal(row').1);
      var q', d' := CanFinalise(s, a.Key(), final.finalSeq, final.finalSeqProposer);
      s', sent := Deciding(s, a, final, q', d'), Others(hosts, s.id, SeqPayload(final));
    } else if a.proposer !in row {
      s', sent := Collecting(s, a), {};
    } else if |row| == |hosts| {
      if m :| m in s.seqHistory && m.Key() == a.Key() {
        s', sent := s, {Packet(a.proposer, SeqPayload(m))};
      } else {
        s', sent := s.(exited := true), {};
      }
    } else {
      s', sent := s, {};
    }
  }

  lemma CanHandleSeq(s: NodeState, m: SeqMessage) returns (s': NodeState, sent: set<Packet>)
    requires Holds(s.queue, m.Key())
    ensures HandleSeq(s, m, s', sent)
  {
    hide FinalisedAndDelivered;
    var q', d' := CanFinalise(s, m.Key(), m.finalSeq, m.finalSeqProposer);
    s', sent := Learning(s, m, q', d'), {};
  }

  lemma CanHandleData(s: NodeState, d: DataMessage) returns (s': NodeState, sent: set<Packet>)
    ensures HandleData(s, d, s', sent)
  {
    if a :| a in s.acked && a.Key() == d.Key() {
      s', sent := s, {Packet(d.sender, AckPayload(a))};
    } else {
      s', sent := TakingIn(s, d), {Packet(d.sender, AckPayload(AckFor(s, d)))};
    }
  }

  // ---------- the measure is never raised ----------

  /** Receiving, or a watchdog resending; not a new multicast and not a loss. */
  ghost predicate QuietStep(w: World, w': World) {
    exists p, e: Event, sent :: !e.Multicast? && NextStep(w, Act(p, e, sent), w')
  }

  ghost predicate RowsGrow(s: NodeState, s': NodeState) {
    && s'.ackHistory.Keys == s.ackHistory.Keys
    && forall k :: k in s.ackHistory ==> s.ackHistory[k].Keys <= s'.ackHistory[k].Keys
  }

  lemma QuietGrowsRows(hosts: set<nat>, s: NodeState, e: Event, s': NodeState, sent: set<Packet>)
    requires NodeNext(hosts, s, e, s', sent) && !e.Multicast?
    requires e.OnAck? ==> e.ack.msgId in s.ackHistory
    ensures RowsGrow(s, s')
  {
    hide HandleData, HandleAck, HandleSeq, HandleDataTimeout, HandleAckTimeout;
    match e
    case OnData(d) => DataEffect(s, d, s', sent);
    case OnAck(a) => AckEffect(hosts, s, a, s', sent);
    case OnSeq(m) => SeqEffect(s, m, s', sent);
    case _ => TimeoutEffect(hosts, s, e, s', sent);
  }

  ghost predicate Closer(w: World, w': World) {
    && w'.hosts == w.hosts && w'.nodes.Keys == w.nodes.Keys
    && Multicasts(w') == Multicasts(w)
    && MissingAcks(w') <= MissingAcks(w)
    && MissingFinals(w') <= MissingFinals(w)
  }

  lemma GrowthIsCloser(w: World, p: nat, s': NodeState, w': World)
    requires p in w.nodes && Grows(w.nodes[p], s') && RowsGrow(w.nodes[p], s')
    requires w'.hosts == w.hosts && w'.nodes == w.nodes[p := s']
    ensures Closer(w, w')
  {
    assert Multicasts(w') == Multicasts(w) by {
      forall q, k
        ensures q in w.nodes && k in w.nodes[q].ackHistory <==> q in w'.nodes && k in w'.nodes[q].ackHistory
      {
      }
    }
    hide Multicasts, Grows;
    forall m, h | AckMissing(w', m, h) ensures AckMissing(w, m, h) {}
    forall m, h | FinalMissing(w', m, h) ensures FinalMissing(w, m, h) {
      if h == p { FinalStaysKnown(w.nodes[p], s', m); }
    }
    hide AckMissing, FinalMissing;
  }

  lemma FinalStaysKnown(s: NodeState, s': NodeState, m: MsgKey)
    requires Grows(s, s') && Undecided(s'.seqHistory, m)
    ensures Undecided(s.seqHistory, m)
  {
  }

  lemma TakeStep(w: World, p: nat, e: Event, s': NodeState, sent: set<Packet>) returns (w': World)
    requires Inv(w) && p in w.nodes && Enabled(w, p, e) && NodeNext(w.hosts, w.nodes[p], e, s', sent)
    requires !e.Multicast?
    ensures w' == World(w.hosts, w.nodes[p := s'], w.net + sent)
    ensures Inv(w') && QuietStep(w, w') && Closer(w, w')
  {
    hide Inv, NodeNext, Grows, RowsGrow, Closer, Enabled, FittingAck, Local;
    w' := World(w.hosts, w.nodes[p := s'], w.net + sent);
    assert NextStep(w, Act(p, e, sent), w');
    StepKeepsInv(w, Act(p, e, sent), w');
    StepKeepsLocal(w, p, e, s', sent);
    if e.OnAck? { AckIsKnown(w, p, e.ack); }
    QuietGrowsRows(w.hosts, w.nodes[p], e, s', sent);
    GrowthIsCloser(w, p, s', w');
  }

  lemma AckIsKnown(w: World, p: nat, a: AckMessage)
    requires Inv(w) && p in w.nodes && Enabled(w, p, OnAck(a))
    ensures a.msgId in w.nodes[p].ackHistory
  {
    hide Local, CrossOk;
    assert w.nodes.Keys == w.hosts;
    AckFits(w, p, a);
  }

  /** No step but a multicast ever raises the measure. */
  lemma MeasureNeverRaised(w: World, step: Step, w': World)
    requires Reachable(w) && NextStep(w, step, w') && !(step.Act? && step.event.Multicast?)
    ensures Measure(w') <= Measure(w)
  {
    hide Inv, NodeNext, Reachable;
    ReachableInv(w);
    match step
    case Lose(packet) =>
      assert MissingAcks(w') == MissingAcks(w) && MissingFinals(w') == MissingFinals(w) by {
        assert Multicasts(w') == Multicasts(w);
      }
    case Act(p, e, sent) =>
      var w1 := TakeStep(w, p, e, w'.nodes[p], sent);
      SubsetSize(MissingAcks(w'), MissingAcks(w));
      SubsetSize(MissingFinals(w'), MissingFinals(w));
  }

  // ---------- one round for a missing ack ----------

  lemma AckIsSent(hosts: set<nat>, s: NodeState, d: DataMessage, s': NodeState, sent: set<Packet>)
    returns (a: AckMessage)
    requires Local(hosts, s) && HandleData(s, d, s', sent)
    ensures a.Key() == d.Key() && a.proposer == s.id && Packet(d.sender, AckPayload(a)) in sent
  {
    hide OwnOk, SelfOk, ProposalsOk, SeqsOk, DecisionsOk, QueueOk;
    if exists b :: b in s.acked && b.Key() == d.Key() {
      a :| a in s.acked && a.Key() == d.Key() && sent == {Packet(d.sender, AckPayload(a))};
    } else {
      a := AckFor(s, d);
    }
  }

  lemma AckIsCollected(hosts: set<nat>, s: NodeState, a: AckMessage, s': NodeState, sent: set<Packet>)
    requires HandleAck(hosts, s, a, s', sent)
    ensures a.proposer in Row(s', a.msgId)
  {
    hide FinalisedAndDelivered, MaxProposal;
  }

  lemma OwnAckIsThere(w: World, m: MsgKey)
    requires Inv(w) && m in Multicasts(w)
    ensures m.sender in w.nodes && w.nodes[m.sender].id == m.sender && !w.nodes[m.sender].exited
    ensures m.msgId in w.nodes[m.sender].ackHistory && m.msgId in w.nodes[m.sender].dataHistory
    ensures m.sender in w.nodes[m.sender].ackHistory[m.msgId]
  {
    assert Local(w.hosts, w.nodes[m.sender]);
    hide AckedOk, SelfOk, ProposalsOk, SeqsOk, DecisionsOk, QueueOk, CrossOk, NetOk;
  }

  lemma NodeIsLocal(w: World, p: nat)
    requires Inv(w) && p in w.nodes
    ensures Local(w.hosts, w.nodes[p]) && w.nodes[p].id == p && !w.nodes[p].exited && w.nodes.Keys == w.hosts
  {
  }

  lemma CanResendData(hosts: set<nat>, s: NodeState, k: nat, h: nat)
    requires !s.exited && k in s.dataHistory && k in s.ackHistory && h in hosts && h != s.id && h !in s.ackHistory[k]
    ensures NodeNext(hosts, s, DataTimeout(k, h), s, {Packet(h, DataPayload(DataMessage(s.id, k, s.dataHistory[k])))})
  {
  }

  lemma AsDataEvent(hosts: set<nat>, s: NodeState, d: DataMessage, s': NodeState, sent: set<Packet>)
    requires !s.exited && HandleData(s, d, s', sent)
    ensures NodeNext(hosts, s, OnData(d), s', sent)
  {
    hide HandleData;
  }

  lemma AsAckEvent(hosts: set<nat>, s: NodeState, a: AckMessage, s': NodeState, sent: set<Packet>)
    requires !s.exited && HandleAck(hosts, s, a, s', sent)
    ensures NodeNext(hosts, s, OnAck(a), s', sent)
  {
    hide HandleAck;
  }

  lemma CloserTrans(w: World, w': World, w'': World)
    requires Closer(w, w') && Closer(w', w'')
    ensures Closer(w, w'')
  {
    hide Multicasts, MissingAcks, MissingFinals;
  }

  lemma AckRound(w: World, m: MsgKey, h: nat) returns (w1: World, w2: World, w3: World)
    requires Inv(w) && m in Multicasts(w) && h in w.nodes && AckMissing(w, m, h)
    ensures QuietStep(w, w1) && QuietStep(w1, w2) && QuietStep(w2, w3)
    ensures Inv(w3) && Closer(w, w3) && !AckMissing(w3, m, h)
  {
    hide Inv, Local, NodeNext, QuietStep, Closer, HandleData, HandleAck, Multicasts;
    var s, k := m.sender, m.msgId;
    OwnAckIsThere(w, m);
    NodeIsLocal(w, h);
    var d := DataMessage(s, k, w.nodes[s].dataHistory[k]);
    CanResendData(w.hosts, w.nodes[s], k, h);
    w1 := TakeStep(w, s, DataTimeout(k, h), w.nodes[s], {Packet(h, DataPayload(d))});
    assert w1.nodes == w.nodes;
    var n2, sent2 := CanHandleData(w1.nodes[h], d);
    AsDataEvent(w1.hosts, w1.nodes[h], d, n2, sent2);
    w2 := TakeStep(w1, h, OnData(d), n2, sent2);
    var a := AckIsSent(w.hosts, w.nodes[h], d, n2, sent2);
    var n3, sent3 := CanHandleAck(w2.hosts, w2.nodes[s], a);
    AsAckEvent(w2.hosts, w2.nodes[s], a, n3, sent3);
    w3 := TakeStep(w2, s, OnAck(a), n3, sent3);
    AckIsCollected(w2.hosts, w2.nodes[s], a, n3, sent3);
    CloserTrans(w, w1, w2);
    CloserTrans(w, w2, w3);
  }

  // ---------- one round for a missing final number ----------

  lemma RowIsFull(w: World, m: MsgKey)
    requires Inv(w) && m in Multicasts(w) && MissingAcks(w) == {}
    ensures m.sender in w.nodes && m.msgId in w.nodes[m.sender].ackHistory
    ensures w.nodes[m.sender].ackHistory[m.msgId].Keys == w.hosts
  {
    hide Inv, Local;
    OwnAckIsThere(w, m);
    NodeIsLocal(w, m.sender);
    var row := w.nodes[m.sender].ackHistory[m.msgId];
    assert forall h :: h in w.hosts && h !in row ==> (m, h) in MissingAcks(w);
    RowWithinHosts(w.hosts, w.nodes[m.sender], m.msgId);
  }

  lemma RowWithinHosts(hosts: set<nat>, s: NodeState, k: nat)
    requires Local(hosts, s) && k in s.ackHistory
    ensures s.ackHistory[k].Keys <= hosts
  {
    hide AckedOk, SelfOk, ProposalsOk, SeqsOk, DecisionsOk, QueueOk;
  }

  lemma FullRowIsDecided(hosts: set<nat>, s: NodeState, k: nat) returns (d: SeqMessage)
    requires Local(hosts, s) && k in s.ackHistory && s.ackHistory[k].Keys == hosts
    ensures d in s.seqHistory && d.Key() == MsgKey(s.id, k) && Complete(hosts, s.ackHistory, k)
  {
    hide OwnOk, AckedOk, SelfOk, ProposalsOk, SeqsOk, QueueOk, MaxProposal;
    var row := s.ackHistory[k];
    assert |row.Keys| == |row|;
    d := SeqMessage(s.id, k, MaxProposal(row).0, MaxProposal(row).1);
  }

  /** When no ack is missing, the sender has decided. */
  lemma SenderHasDecided(w: World, m: MsgKey) returns (d: SeqMessage)
    requires Inv(w) && m in Multicasts(w) && MissingAcks(w) == {}
    ensures Decided(w, d) && d.Key() == m && Complete(w.hosts, w.nodes[m.sender].ackHistory, m.msgId)
    ensures w.nodes[m.sender].ackHistory[m.msgId].Keys == w.hosts
  {
    hide Inv, Local, Multicasts, MissingAcks, Complete;
    RowIsFull(w, m);
    NodeIsLocal(w, m.sender);
    d := FullRowIsDecided(w.hosts, w.nodes[m.sender], m.msgId);
  }

  lemma AckIsKept(hosts: set<nat>, s: NodeState, m: MsgKey) returns (a: AckMessage)
    requires Local(hosts, s) && m in s.accepted && m.sender != s.id
    ensures a in s.acked && a.Key() == m && a.proposer == s.id
  {
    hide OwnOk, SelfOk, ProposalsOk, SeqsOk, DecisionsOk, QueueOk;
    a := AckMessage(m.sender, m.msgId, s.accepted[m].proposal, s.id);
  }

  lemma CanResendAck(hosts: set<nat>, s: NodeState, a: AckMessage)
    requires !s.exited && a in s.acked && Undecided(s.seqHistory, a.Key())
    ensures NodeNext(hosts, s, AckTimeout(a), s, {Packet(a.sender, AckPayload(a))})
  {
  }

  /** A late ack for a decided message is answered with the decision. */
  lemma LateAckIsAnswered(hosts: set<nat>, s: NodeState, a: AckMessage, d: SeqMessage)
    requires Local(hosts, s) && d in s.seqHistory && d.Key() == a.Key() && a.sender == s.id
    requires Complete(hosts, s.ackHistory, a.msgId) && a.proposer in s.ackHistory[a.msgId]
    ensures NodeNext(hosts, s, OnAck(a), s, {Packet(a.proposer, SeqPayload(d))})
  {
    hide OwnOk, AckedOk, SelfOk, ProposalsOk, DecisionsOk, QueueOk, SeqsOk;
  }

  lemma QueuedWhenUndecided(hosts: set<nat>, s: NodeState, m: MsgKey)
    requires Local(hosts, s) && m in s.accepted && Undecided(s.seqHistory, m)
    ensures Holds(s.queue, m)
  {
    UndecidedIsQueued(s.id, s.accepted, s.seqHistory, s.queue, s.delivered, m);
  }

  lemma SeqIsLearnt(hosts: set<nat>, s: NodeState, d: SeqMessage, s': NodeState, sent: set<Packet>)
    requires !s.exited && HandleSeq(s, d, s', sent) && Holds(s.queue, d.Key())
    ensures NodeNext(hosts, s, OnSeq(d), s', sent) && !Undecided(s'.seqHistory, d.Key())
  {
    hide FinalisedAndDelivered;
  }

  lemma FinalRound(w: World, m: MsgKey, h: nat) returns (w1: World, w2: World, w3: World)
    requires Inv(w) && m in Multicasts(w) && MissingAcks(w) == {} && FinalMissing(w, m, h)
    ensures QuietStep(w, w1) && QuietStep(w1, w2) && QuietStep(w2, w3)
    ensures Inv(w3) && Closer(w, w3) && !FinalMissing(w3, m, h)
  {
    hide Inv, Local, NodeNext, QuietStep, Closer, HandleSeq, Multicasts, MissingAcks, Holds, IsMaxOfProposals;
    var s := m.sender;
    var d := SenderHasDecided(w, m);
    DecidedIsMax(w, d);
    OwnProposalBelow(w, h, d);
    NodeIsLocal(w, h);
    NodeIsLocal(w, s);
    var a := AckIsKept(w.hosts, w.nodes[h], m);
    CanResendAck(w.hosts, w.nodes[h], a);
    w1 := TakeStep(w, h, AckTimeout(a), w.nodes[h], {Packet(s, AckPayload(a))});
    assert w1.nodes == w.nodes;
    LateAckIsAnswered(w1.hosts, w1.nodes[s], a, d);
    w2 := TakeStep(w1, s, OnAck(a), w1.nodes[s], {Packet(h, SeqPayload(d))});
    assert w2.nodes == w.nodes;
    QueuedWhenUndecided(w2.hosts, w2.nodes[h], m);
    var n3, sent3 := CanHandleSeq(w2.nodes[h], d);
    SeqIsLearnt(w2.hosts, w2.nodes[h], d, n3, sent3);
    w3 := TakeStep(w2, h, OnSeq(d), n3, sent3);
    CloserTrans(w, w1, w2);
    CloserTrans(w, w2, w3);
  }

  // ---------- done ----------

  /** Every multicast message is delivered at every process, and no queue holds anything. */
  ghost predicate Done(w: World) {
    AllDelivered(w) && forall p :: p in w.nodes ==> w.nodes[p].queue == multiset{}
  }

  /** A process that knows the final number of all it holds has delivered it all. */
  lemma KnowingAllIsDelivered(hosts: set<nat>, s: NodeState)
    requires Local(hosts, s) && forall m :: m in s.accepted ==> !Undecided(s.seqHistory, m)
    ensures s.queue == multiset{}
  {
    hide OwnOk, AckedOk, SelfOk, ProposalsOk, SeqsOk, DecisionsOk, Unique, NothingLost, OrderOk, DeliveredOk;
    if s.queue != multiset{} {
      var x :| x in s.queue && x.status.Undeliverable?;
      UndeliverableIsUndecided(s.id, s.accepted, s.seqHistory, s.queue + multiset(s.delivered), x);
      assert false;
    }
  }

  lemma UndeliverableIsUndecided(id: nat, ledger: Ledger, seqs: set<SeqMessage>, all: multiset<QueuedMessage>,
                                 x: QueuedMessage)
    requires EntriesOk(id, ledger, seqs, all) && x in all && x.status.Undeliverable?
    ensures x.Key() in ledger && Undecided(seqs, x.Key())
  {
    assert EntryOk(id, ledger, seqs, x);
  }

  lemma HeldIsMulticast(w: World, p: nat, m: MsgKey)
    requires Inv(w) && p in w.nodes && m in w.nodes[p].accepted
    ensures m in Multicasts(w)
  {
    hide Local, NetOk;
    assert CrossOk(w.nodes, p);
    DataIsAcked(w, m.sender, m.msgId);
  }

  lemma DataIsAcked(w: World, p: nat, k: nat)
    requires Inv(w) && p in w.nodes && k in w.nodes[p].dataHistory
    ensures MsgKey(p, k) in Multicasts(w)
  {
    hide Inv, Local;
    NodeIsLocal(w, p);
    DataHasRow(w.hosts, w.nodes[p], k);
  }

  lemma DataHasRow(hosts: set<nat>, s: NodeState, k: nat)
    requires Local(hosts, s) && k in s.dataHistory
    ensures k in s.ackHistory
  {
    hide AckedOk, SelfOk, ProposalsOk, SeqsOk, DecisionsOk, QueueOk;
  }

  lemma ZeroIsDone(w: World)
    requires Inv(w) && MissingAcks(w) == {} && MissingFinals(w) == {}
    ensures Done(w)
  {
    hide Inv, Local, Multicasts, MissingAcks, Decided, IsMaxOfProposals, Ordered;
    forall p | p in w.nodes ensures w.nodes[p].queue == multiset{} {
      NodeIsLocal(w, p);
      forall m | m in w.nodes[p].accepted ensures !Undecided(w.nodes[p].seqHistory, m) {
        HeldIsMulticast(w, p, m);
        assert FinalMissing(w, m, p) ==> (m, p) in MissingFinals(w);
      }
      KnowingAllIsDelivered(w.hosts, w.nodes[p]);
    }
    forall p, q, k | p in w.nodes && q in w.nodes && k in w.nodes[q].dataHistory
      ensures exists i :: 0 <= i < |w.nodes[p].delivered| && w.nodes[p].delivered[i].Key() == MsgKey(q, k)
    {
      DataIsAcked(w, q, k);
      var d := SenderHasDecided(w, MsgKey(q, k));
      DecidedIsMax(w, d);
      OwnProposalBelow(w, p, d);
      InvOrdered(w, p);
      var s := w.nodes[p];
      AcceptedIsHeld(p, s.accepted, s.seqHistory, s.queue, s.delivered, MsgKey(q, k));
    }
  }

  lemma DoneIsZero(w: World)
    requires Inv(w) && Done(w)
    ensures MissingAcks(w) == {} && MissingFinals(w) == {}
  {
    hide Inv, Local, Multicasts;
    forall m, h | m in Multicasts(w) && h in w.hosts ensures !AckMissing(w, m, h) && !FinalMissing(w, m, h) {
      NoneMissing(w, m, h);
    }
  }

  lemma NoneMissing(w: World, m: MsgKey, h: nat)
    requires Inv(w) && AllDelivered(w) && m in Multicasts(w) && h in w.hosts
    ensures !AckMissing(w, m, h) && !FinalMissing(w, m, h)
  {
    hide Inv, Local, Multicasts;
    OwnAckIsThere(w, m);
    HostIsNode(w, h);
    NodeIsLocal(w, h);
    assert m == MsgKey(m.sender, m.msgId);
    var i :| 0 <= i < |w.nodes[h].delivered| && w.nodes[h].delivered[i].Key() == m;
    DeliveredEntry(w, h, i);
    DeliveredIsKnown(w.hosts, w.nodes[h], i);
    DecidedRowIsFull(w, Decision(w.nodes[h].delivered[i]));
  }

  lemma DeliveredIsKnown(hosts: set<nat>, s: NodeState, i: nat)
    requires Local(hosts, s) && i < |s.delivered|
    ensures !Undecided(s.seqHistory, s.delivered[i].Key())
  {
    hide OwnOk, AckedOk, SelfOk, ProposalsOk, SeqsOk, DecisionsOk, Unique, NothingLost, OrderOk, Stopped;
    var x := s.delivered[i];
    assert x in multiset(s.delivered);
    assert x in s.queue + multiset(s.delivered);
    assert EntryOk(s.id, s.accepted, s.seqHistory, x);
    assert SeqMessage(x.sender, x.msgId, x.sequenceNumber, x.proposer).Key() == x.Key();
  }

  lemma DecidedRowIsFull(w: World, d: SeqMessage)
    requires Inv(w) && Decided(w, d)
    ensures forall h :: h in w.hosts ==> h in Row(w.nodes[d.sender], d.msgId)
  {
    NodeIsLocal(w, d.sender);
    hide Inv, AckedOk, SelfOk, ProposalsOk, SeqsOk, QueueOk, MaxProposal;
    var rows := w.nodes[d.sender].ackHistory;
    assert Complete(w.hosts, rows, d.msgId);
    SubsetSize(rows[d.msgId].Keys, w.hosts);
    assert |rows[d.msgId].Keys| == |rows[d.msgId]|;
  }

  /** The measure is zero exactly when everything is delivered and every queue is empty. */
  lemma MeasureZeroExactlyWhenDone(w: World)
    requires Reachable(w)
    ensures Measure(w) == 0 <==> Done(w)
  {
    hide Inv, Done, MissingAcks, MissingFinals, Reachable;
    ReachableInv(w);
    if Measure(w) == 0 { ZeroIsDone(w); }
    if Done(w) { DoneIsZero(w); }
  }

  // ---------- progress ----------

  ghost predicate QuietRun(run: seq<World>) {
    |run| > 0 && forall i :: 0 <= i < |run| - 1 ==> QuietStep(run[i], run[i + 1])
  }

  lemma Prepend(w: World, w1: World, w2: World, run: seq<World>)
    requires QuietRun(run)
    requires QuietStep(w, w1) && QuietStep(w1, w2) && QuietStep(w2, run[0])
    ensures QuietRun([w, w1, w2] + run)
  {
    hide QuietStep;
    var run' := [w, w1, w2] + run;
    forall i | 0 <= i < |run'| - 1 ensures QuietStep(run'[i], run'[i + 1]) {
      if i >= 3 { assert run'[i] == run[i - 3] && run'[i + 1] == run[i - 2]; }
    }
  }

  lemma ProperSubsetIsSmaller<T>(a: set<T>, b: set<T>, x: T)
    requires a <= b && x in b && x !in a
    ensures |a| < |b|
  {
    SubsetSize(a, b - {x});
  }

  lemma AckRoundLowers(w: World, w': World, m: MsgKey, h: nat)
    requires Closer(w, w') && (m, h) in MissingAcks(w) && !AckMissing(w', m, h)
    ensures Measure(w') < Measure(w)
  {
    assert (m, h) !in MissingAcks(w');
    hide Multicasts, AckMissing, FinalMissing, MissingAcks, MissingFinals;
    ProperSubsetIsSmaller(MissingAcks(w'), MissingAcks(w), (m, h));
    SubsetSize(MissingFinals(w'), MissingFinals(w));
  }

  lemma FinalRoundLowers(w: World, w': World, m: MsgKey, h: nat)
    requires Closer(w, w') && (m, h) in MissingFinals(w) && !FinalMissing(w', m, h)
    ensures Measure(w') < Measure(w)
  {
    assert (m, h) !in MissingFinals(w');
    hide Multicasts, AckMissing, FinalMissing, MissingAcks, MissingFinals;
    ProperSubsetIsSmaller(MissingFinals(w'), MissingFinals(w), (m, h));
    SubsetSize(MissingAcks(w'), MissingAcks(w));
  }

  /** One round of three quiet steps lowers the measure, as long as something is missing. */
  lemma Round(w: World) returns (w1: World, w2: World, w3: World)
    requires Inv(w) && Measure(w) > 0
    ensures QuietStep(w, w1) && QuietStep(w1, w2) && QuietStep(w2, w3)
    ensures Inv(w3) && Measure(w3) < Measure(w)
  {
    hide Inv, QuietStep, Closer, Multicasts, AckMissing, FinalMissing;
    if MissingAcks(w) != {} {
      var m, h :| (m, h) in MissingAcks(w);
      HostIsNode(w, h);
      w1, w2, w3 := AckRound(w, m, h);
      AckRoundLowers(w, w3, m, h);
    } else {
      var m, h :| (m, h) in MissingFinals(w);
      w1, w2, w3 := FinalRound(w, m, h);
      FinalRoundLowers(w, w3, m, h);
    }
  }

  lemma HostIsNode(w: World, h: nat)
    requires Inv(w) && h in w.hosts
    ensures h in w.nodes
  {
  }

  lemma {:induction false} CanFinish(w: World) returns (run: seq<World>)
    requires Inv(w)
    ensures QuietRun(run) && run[0] == w && Done(run[|run| - 1])
    decreases Measure(w)
  {
    hide Inv, Done, QuietStep;
    if Measure(w) == 0 {
      ZeroIsDone(w) by { NothingMissing(w); }
      run := [w];
    } else {
      var w1, w2, w3 := Round(w);
      var rest := CanFinish(w3);
      Prepend(w, w1, w2, rest);
      run := [w, w1, w2] + rest;
    }
  }

  lemma NothingMissing(w: World)
    requires Measure(w) == 0
    ensures MissingAcks(w) == {} && MissingFinals(w) == {}
  {
    hide Multicasts;
  }

  /** From every reachable state, whatever was lost so far, some finite sequence of resends and
      receipts delivers every multicast message everywhere and empties every queue. */
  lemma Progress(w: World) returns (run: seq<World>)
    requires Reachable(w)
    ensures QuietRun(run) && run[0] == w && Done(run[|run| - 1])
  {
    ReachableInv(w);
    run := CanFinish(w);
  }
}
