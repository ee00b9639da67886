/** What goes onto the network: for every step of every run exactly which packets it sends, that a
    watchdog falls silent for good once it has its answer, and that the system comes to rest. */
module Traffic {
  import opened Messages
  import opened NodeSpec
  import opened NodeInvariant
  import opened Machine
  import opened Invariant
  import opened Agreement
  import opened TotalOrder
  import opened PrefixOrder
  import opened Progress

  ghost predicate Knows(s: NodeState, m: MsgKey) {
    !Undecided(s.seqHistory, m)
  }

  // ---------- multicasts ----------

  /** A new message is recorded with its data and goes to every other host, and nothing else does. */
  lemma MulticastIsSent(w: World, p: nat, data: nat, sent: set<Packet>, w': World)
    requires Reachable(w) && NextStep(w, Act(p, Multicast(data), sent), w')
    ensures var d := DataMessage(p, w.nodes[p].nextMsgId, data);
            && d.msgId !in w.nodes[p].dataHistory
            && w'.nodes[p].dataHistory == w.nodes[p].dataHistory[d.msgId := data]
            && (forall h :: h in w.hosts && h != p ==> Packet(h, DataPayload(d)) in w'.net)
            && (forall pkt :: pkt in sent ==> pkt.payload == DataPayload(d) && pkt.dst in w.hosts && pkt.dst != p)
  {
    hide Reachable, Inv, Local, CrossOk;
    ReachableInv(w);
    NodeIsOk(w, p);
    OwnKeyIsNew(w.hosts, w.nodes[p]);
  }

  // ---------- data ----------

  lemma DataTraffic(s: NodeState, d: DataMessage, s': NodeState, sent: set<Packet>)
    requires AckedOk(s.id, s.acked, s.accepted) && HandleData(s, d, s', sent) && d.sender != s.id
    ensures d.Key() in s'.accepted
    ensures sent == {Packet(d.sender, AckPayload(AckMessage(d.sender, d.msgId, s'.accepted[d.Key()].proposal, s.id)))}
  {
    UnackedIsNew(s.id, s.acked, s.accepted, d);
  }

  /** Data is always answered by one ack with the number proposed for it, the first time and later. */
  lemma DataIsAnswered(w: World, p: nat, d: DataMessage, sent: set<Packet>, w': World)
    requires Reachable(w) && NextStep(w, Act(p, OnData(d), sent), w')
    ensures d.Key() in w'.nodes[p].accepted
    ensures var a := AckMessage(d.sender, d.msgId, w'.nodes[p].accepted[d.Key()].proposal, p);
            sent == {Packet(d.sender, AckPayload(a))} && Packet(d.sender, AckPayload(a)) in w'.net
  {
    hide Reachable, Inv, HandleData, AckedOk;
    ReachableInv(w);
    DataFits(w, p, d);
    NodeAcked(w, p);
    DataTraffic(w.nodes[p], d, w'.nodes[p], sent);
  }

  lemma NodeAcked(w: World, p: nat)
    requires Inv(w) && p in w.nodes
    ensures w.nodes[p].id == p && AckedOk(p, w.nodes[p].acked, w.nodes[p].accepted)
  {
    hide Inv, CrossOk, AckedOk, OwnOk, SelfOk, ProposalsOk, SeqsOk, DecisionsOk, QueueOk, OrderOk, LearntOk;
    NodeIsOk(w, p);
  }

  // ---------- acks ----------

  /** `pkt` announces the decision on the acked message: to everybody else when it has just been taken,
      and to the process that sent the ack when it was known before. */
  ghost predicate Announces(hosts: set<nat>, s: NodeState, a: AckMessage, s': NodeState, pkt: Packet) {
    && pkt.payload.SeqPayload? && pkt.payload.final in s'.seqHistory && pkt.payload.final.Key() == a.Key()
    && if Knows(s, a.Key()) then pkt.dst == a.proposer else pkt.dst in hosts && pkt.dst != s.id
  }

  /** The message of a row is decided exactly if the row is complete. */
  lemma KnownIsComplete(hosts: set<nat>, s: NodeState, k: nat)
    requires Local(hosts, s)
    ensures Knows(s, MsgKey(s.id, k)) <==> Complete(hosts, s.ackHistory, k)
  {
    hide OwnOk, AckedOk, SelfOk, ProposalsOk, SeqsOk, QueueOk, OrderOk, LearntOk, MaxProposal;
    if Complete(hosts, s.ackHistory, k) {
      var best := MaxProposal(s.ackHistory[k]);
      assert SeqMessage(s.id, k, best.0, best.1).Key() == MsgKey(s.id, k);
    } else {
      IncompleteIsUndecided(hosts, s.id, s.ackHistory, s.seqHistory, k);
    }
  }

  lemma NewAckTraffic(hosts: set<nat>, s: NodeState, a: AckMessage, s': NodeState, sent: set<Packet>)
    requires HandleAck(hosts, s, a, s', sent) && a.proposer !in Row(s, a.msgId) && !Knows(s, a.Key())
    ensures forall pkt :: pkt in sent <==> Announces(hosts, s, a, s', pkt)
  {
    hide FinalisedAndDelivered, MaxProposal, WithAck, Row;
  }

  lemma OldAckTraffic(hosts: set<nat>, s: NodeState, a: AckMessage, s': NodeState, sent: set<Packet>)
    requires HandleAck(hosts, s, a, s', sent) && a.proposer in Row(s, a.msgId)
    requires Knows(s, a.Key()) <==> |Row(s, a.msgId)| == |hosts|
    requires SeqsOk(s.accepted, s.seqHistory)
    ensures s' == s && forall pkt :: pkt in sent <==> Announces(hosts, s, a, s', pkt)
  {
    hide FinalisedAndDelivered, MaxProposal, WithAck, Row;
  }

  lemma AckTraffic(hosts: set<nat>, s: NodeState, a: AckMessage, s': NodeState, sent: set<Packet>)
    requires Local(hosts, s) && HandleAck(hosts, s, a, s', sent) && FittingAck(hosts, s, a)
    ensures forall pkt :: pkt in sent <==> Announces(hosts, s, a, s', pkt)
  {
    hide Knows, HandleAck, Announces, Local;
    KnownIsComplete(hosts, s, a.msgId);
    if a.proposer in Row(s, a.msgId) {
      LocalSeqs(hosts, s);
      OldAckTraffic(hosts, s, a, s', sent);
    } else {
      RowIsSmaller(hosts, s, a);
      NewAckTraffic(hosts, s, a, s', sent);
    }
  }

  /** An ack is answered exactly as far as the message is decided: a new decision goes to every other
      host, an old one to the process that repeats its ack, and before there is nothing to say. */
  lemma AckIsAnswered(w: World, p: nat, a: AckMessage, sent: set<Packet>, w': World)
    requires Reachable(w) && NextStep(w, Act(p, OnAck(a), sent), w')
    ensures forall pkt :: pkt in sent <==> Announces(w.hosts, w.nodes[p], a, w'.nodes[p], pkt)
    ensures forall d, h :: d in w'.nodes[p].seqHistory && d !in w.nodes[p].seqHistory && h in w.hosts && h != p ==>
              Packet(h, SeqPayload(d)) in w'.net
    ensures forall d :: d in w.nodes[p].seqHistory && d.Key() == a.Key() ==>
              Packet(a.proposer, SeqPayload(d)) in w'.net
  {
    hide Reachable, Inv, HandleAck, Local, CrossOk, Announces, FittingAck;
    ReachableInv(w);
    NodeIsOk(w, p);
    AckFits(w, p, a);
    var s, s' := w.nodes[p], w'.nodes[p];
    AckTraffic(w.hosts, s, a, s', sent);
    AckEffect(w.hosts, s, a, s', sent);
    forall d, h | d in s'.seqHistory && d !in s.seqHistory && h in w.hosts && h != p
      ensures Packet(h, SeqPayload(d)) in w'.net
    {
      NewlyDecided(w.hosts, s, a, s', sent, d);
      NewIsAnnounced(w.hosts, s, a, s', d, h);
    }
    forall d | d in s.seqHistory && d.Key() == a.Key() ensures Packet(a.proposer, SeqPayload(d)) in w'.net {
      OldIsAnnounced(w.hosts, s, a, s', d);
    }
  }

  /** What an ack adds is the first decision on its message. */
  lemma NewlyDecided(hosts: set<nat>, s: NodeState, a: AckMessage, s': NodeState, sent: set<Packet>, d: SeqMessage)
    requires Local(hosts, s) && HandleAck(hosts, s, a, s', sent) && FittingAck(hosts, s, a)
    requires d in s'.seqHistory && d !in s.seqHistory
    ensures d.Key() == a.Key() && !Knows(s, a.Key())
  {
    KnownIsComplete(hosts, s, a.msgId);
    LocalSeqs(hosts, s);
    hide Knows, HandleAck, Local;
    AckEffect(hosts, s, a, s', sent);
    if a.proposer in Row(s, a.msgId) {
      OldAckTraffic(hosts, s, a, s', sent);
    } else {
      RowIsSmaller(hosts, s, a);
    }
  }

  lemma LocalSeqs(hosts: set<nat>, s: NodeState)
    requires Local(hosts, s)
    ensures SeqsOk(s.accepted, s.seqHistory)
  {
  }

  lemma RowIsSmaller(hosts: set<nat>, s: NodeState, a: AckMessage)
    requires Local(hosts, s) && FittingAck(hosts, s, a) && a.proposer !in Row(s, a.msgId)
    ensures !Complete(hosts, s.ackHistory, a.msgId)
  {
    hide AckedOk, SelfOk, ProposalsOk, SeqsOk, DecisionsOk, QueueOk, OrderOk, LearntOk;
    SmallerRow(hosts, s.ackHistory[a.msgId], a.proposer, a.proposedSeq);
  }

  lemma NewIsAnnounced(hosts: set<nat>, s: NodeState, a: AckMessage, s': NodeState, d: SeqMessage, h: nat)
    requires d in s'.seqHistory && d.Key() == a.Key() && !Knows(s, a.Key()) && h in hosts && h != s.id
    ensures Announces(hosts, s, a, s', Packet(h, SeqPayload(d)))
  {
  }

  lemma OldIsAnnounced(hosts: set<nat>, s: NodeState, a: AckMessage, s': NodeState, d: SeqMessage)
    requires d in s.seqHistory && d.Key() == a.Key() && s.seqHistory <= s'.seqHistory
    ensures Announces(hosts, s, a, s', Packet(a.proposer, SeqPayload(d)))
  {
  }

  // ---------- final numbers ----------

  /** Learning a final number sends nothing. */
  lemma SeqIsSilent(w: World, p: nat, m: SeqMessage, sent: set<Packet>, w': World)
    requires Reachable(w) && NextStep(w, Act(p, OnSeq(m), sent), w')
    ensures sent == {} && w'.net == w.net
  {
    hide Reachable, HandleSeq;
    SeqEffect(w.nodes[p], m, w'.nodes[p], sent);
  }

  // ---------- watchdogs ----------

  /** The answer that the watchdog waiting on `e` is there for has come. */
  predicate Answered(s: NodeState, e: Event) {
    match e
    case DataTimeout(k, h) => h in Row(s, k)
    case AckTimeout(a) => exists m :: m in s.seqHistory && m.Key() == a.Key()
    case _ => false
  }

  /** What a watchdog repeats. */
  predicate Repeats(s: NodeState, e: Event, pkt: Packet) {
    match e
    case DataTimeout(k, h) =>
      k in s.dataHistory && pkt == Packet(h, DataPayload(DataMessage(s.id, k, s.dataHistory[k])))
    case AckTimeout(a) => pkt == Packet(a.sender, AckPayload(a))
    case _ => false
  }

  /** A watchdog that wakes up changes nothing, and repeats its packet exactly if the answer is missing. */
  lemma WatchdogRepeatsUntilAnswered(w: World, p: nat, e: Event, sent: set<Packet>, w': World)
    requires Reachable(w) && NextStep(w, Act(p, e, sent), w') && (e.DataTimeout? || e.AckTimeout?)
    ensures w'.nodes == w.nodes
    ensures forall pkt :: pkt in sent <==> Repeats(w.nodes[p], e, pkt) && !Answered(w.nodes[p], e)
  {
    hide Reachable, Inv, Local, CrossOk;
    ReachableInv(w);
    NodeIsOk(w, p);
    if e.DataTimeout? {
      DataHasRow(w.hosts, w.nodes[p], e.msgId);
    }
  }

  ghost predicate RowsKept(s: NodeState, s': NodeState) {
    forall k, h :: h in Row(s, k) ==> h in Row(s', k)
  }

  lemma EventKeepsRows(hosts: set<nat>, s: NodeState, e: Event, s': NodeState, sent: set<Packet>)
    requires NodeNext(hosts, s, e, s', sent) && s.nextMsgId !in s.ackHistory
    ensures RowsKept(s, s')
  {
    hide HandleData, HandleAck, HandleSeq, HandleDataTimeout, HandleAckTimeout;
    match e
    case Multicast(data) =>
    case OnData(d) => DataEffect(s, d, s', sent);
    case OnAck(a) => AckEffect(hosts, s, a, s', sent);
    case OnSeq(m) => SeqEffect(s, m, s', sent);
    case _ => TimeoutEffect(hosts, s, e, s', sent);
  }

  lemma StepKeepsRows(w: World, w': World, p: nat)
    requires Inv(w) && Next(w, w') && p in w.nodes && p in w'.nodes
    ensures RowsKept(w.nodes[p], w'.nodes[p])
  {
    hide Inv, Local, CrossOk, NodeNext, Enabled;
    NodeIsOk(w, p);
    OwnKeyIsNew(w.hosts, w.nodes[p]);
    var step :| NextStep(w, step, w');
    if step.Act? && step.p == p { EventKeepsRows(w.hosts, w.nodes[p], step.event, w'.nodes[p], step.sent); }
  }

  lemma {:induction false} RunKeepsRows(run: seq<World>, i: nat, j: nat, p: nat)
    requires IsRun(run) && i <= j < |run| && p in run[i].nodes
    ensures p in run[j].nodes && RowsKept(run[i].nodes[p], run[j].nodes[p])
    decreases j
  {
    hide RowsKept, Next, Init, Inv, Grows;
    if i == j {
      SameRowsKept(run[i].nodes[p]);
    } else {
      RunKeepsRows(run, i, j - 1, p);
      RunInv(run, j - 1);
      RunIsLater(run, j - 1, j);
      assert Next(run[j - 1], run[j - 1 + 1]);
      StepKeepsRows(run[j - 1], run[j], p);
      RowsKeptTrans(run[i].nodes[p], run[j - 1].nodes[p], run[j].nodes[p]);
    }
  }

  lemma SameRowsKept(s: NodeState)
    ensures RowsKept(s, s)
  {
  }

  lemma RowsKeptTrans(s: NodeState, s': NodeState, s'': NodeState)
    requires RowsKept(s, s') && RowsKept(s', s'')
    ensures RowsKept(s, s'')
  {
    hide Row;
  }

  lemma AnsweredStays(s: NodeState, s': NodeState, e: Event)
    requires Answered(s, e) && RowsKept(s, s') && s.seqHistory <= s'.seqHistory
    ensures Answered(s', e)
  {
    hide Row;
  }

  /** Once a watchdog has its answer, it sends nothing at any later time. */
  lemma WatchdogFallsSilent(run: seq<World>, i: nat, j: nat, p: nat, e: Event, sent: set<Packet>, w': World)
    requires IsRun(run) && i <= j < |run| && (e.DataTimeout? || e.AckTimeout?)
    requires p in run[i].nodes && Answered(run[i].nodes[p], e)
    requires NextStep(run[j], Act(p, e, sent), w')
    ensures sent == {} && w' == run[j]
  {
    assert Reachable(run[j]) by { PrefixReaches(run, j); }
    RunKeepsRows(run, i, j, p);
    RunIsLater(run, i, j);
    hide IsRun, Reachable, Answered, RowsKept, NodeNext, Repeats;
    AnsweredStays(run[i].nodes[p], run[j].nodes[p], e);
    WatchdogRepeatsUntilAnswered(run[j], p, e, sent, w');
    assert sent == {};
  }

  lemma PrefixReaches(run: seq<World>, j: nat)
    requires IsRun(run) && j < |run|
    ensures Reachable(run[j])
  {
    hide Next, Init;
    var start := run[..j + 1];
    forall i | 0 <= i < |start| - 1 ensures Next(start[i], start[i + 1]) {
      assert start[i] == run[i] && start[i + 1] == run[i + 1];
    }
    assert IsRun(start) && start[|start| - 1] == run[j];
  }

  // ---------- rest ----------

  /** When all is done no watchdog sends anything. */
  lemma DoneIsQuiet(w: World, p: nat, e: Event, sent: set<Packet>, w': World)
    requires Reachable(w) && Done(w) && NextStep(w, Act(p, e, sent), w') && (e.DataTimeout? || e.AckTimeout?)
    ensures sent == {} && w' == w
  {
    hide Reachable, Done, Inv, Repeats, Answered, NodeNext, MissingAcks, MissingFinals;
    ReachableInv(w);
    DoneIsZero(w);
    NothingUnanswered(w, p, e, sent, w');
    WatchdogRepeatsUntilAnswered(w, p, e, sent, w');
    assert sent == {};
  }

  lemma NothingUnanswered(w: World, p: nat, e: Event, sent: set<Packet>, w': World)
    requires Inv(w) && MissingAcks(w) == {} && MissingFinals(w) == {}
    requires NextStep(w, Act(p, e, sent), w') && (e.DataTimeout? || e.AckTimeout?)
    ensures Answered(w.nodes[p], e)
  {
    hide Inv, Local, CrossOk;
    NodeIsOk(w, p);
    match e
    case DataTimeout(k, h) =>
      DataHasRow(w.hosts, w.nodes[p], k);
      assert (MsgKey(p, k), h) !in MissingAcks(w);
      assert MsgKey(p, k) in Multicasts(w);
    case AckTimeout(a) =>
      AckedIsMulticast(w, p, a);
      assert (a.Key(), p) !in MissingFinals(w);
  }

  lemma AckedIsMulticast(w: World, p: nat, a: AckMessage)
    requires Inv(w) && p in w.nodes && a in w.nodes[p].acked
    ensures a.Key() in Multicasts(w)
  {
    hide Inv, Multicasts, AckedOk;
    NodeAcked(w, p);
    AckedIsAccepted(p, w.nodes[p].acked, w.nodes[p].accepted, a);
    HeldIsMulticast(w, p, a.Key());
  }

  lemma AckedIsAccepted(p: nat, acked: set<AckMessage>, ledger: Ledger, a: AckMessage)
    requires AckedOk(p, acked, ledger) && a in acked
    ensures a.Key() in ledger
  {
  }

  /** When all is done and nothing is in flight, only a new multicast ever changes anything. */
  lemma RestIsFinal(w: World, step: Step, w': World)
    requires Reachable(w) && Done(w) && w.net == {} && NextStep(w, step, w')
    ensures w' == w || (step.Act? && step.event.Multicast?)
  {
    hide Reachable, Done, NodeNext;
    match step
    case Lose(packet) =>
    case Act(p, e, sent) =>
      if e.DataTimeout? || e.AckTimeout? { DoneIsQuiet(w, p, e, sent, w'); }
  }
}
