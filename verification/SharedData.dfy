/** The handlers against the mutexes: an event neither reads nor changes any shared data but those that
    the routine handling it touches, and so holds the mutex of. */
module SharedData {
  import opened Messages
  import opened NodeSpec
  import opened Moves
  import L = Locks
  import Recording

  ghost predicate Acked(s: NodeState, m: MsgKey) {
    exists a :: a in s.acked && a.Key() == m
  }

  ghost predicate Queued(s: NodeState, m: MsgKey) {
    exists x :: x in s.queue && x.Key() == m
  }

  ghost predicate Known(s: NodeState, m: MsgKey) {
    exists d :: d in s.seqHistory && d.Key() == m
  }

  /** Routine `r` handles event `e` in state `s`. */
  ghost predicate Handles(r: L.Routine, hosts: set<nat>, s: NodeState, e: Event) {
    match e
    case Multicast(_) => r.MulticastData?
    case OnData(d) => r.HandleData? && (r.duplicate <==> Acked(s, d.Key()))
    case OnAck(a) =>
      var row := Row(s, a.msgId);
      if a.proposer !in row then
        if |WithAck(row, a.proposer, a.proposedSeq)| == |hosts| then r.HandleAckFinal? else r.HandleAckOther?
      else if |row| == |hosts| then r.HandleAckDuplicate? && Known(s, a.Key())
      else r.HandleAckOther?
    case OnSeq(m) => if Queued(s, m.Key()) then r.HandleSeqNew? else r.HandleSeqKnown?
    case DataTimeout(_, _) => r.DataWatchdog?
    case AckTimeout(_) => r.AckWatchdog?
  }

  /** `s` with container `c` as it is in `v`. */
  function Put(s: NodeState, c: L.Container, v: NodeState): NodeState {
    match c
    case DataHistory => s.(dataHistory := v.dataHistory)
    case AckHistory => s.(ackHistory := v.ackHistory)
    case SeqMessageHistory => s.(seqHistory := v.seqHistory)
    case DeliveryQueue => s.(queue := v.queue)
    case DeliveredMessage => s.(delivered := v.delivered)
    case _ => s
  }

  /** Equal but for the histories that the program does not keep. */
  predicate SameFields(s: NodeState, t: NodeState) {
    s == t.(accepted := s.accepted, learnt := s.learnt)
  }

  /** The data watchdog has its own copy of the message, for which the data history stands. */
  predicate CopyKept(s: NodeState, e: Event, c: L.Container, v: NodeState) {
    c.DataHistory? && e.DataTimeout? ==>
      e.msgId in s.dataHistory && e.msgId in v.dataHistory && v.dataHistory[e.msgId] == s.dataHistory[e.msgId]
  }

  /** With anything else in a container that the routine does not touch, the event sends the same
      packets, changes the other fields in the same way and leaves the container alone. */
  ghost predicate Ignores(hosts: set<nat>, s: NodeState, e: Event, s': NodeState, sent: set<Packet>,
                          c: L.Container, v: NodeState)
  {
    exists t :: NodeNext(hosts, Put(s, c, v), e, t, sent) && SameFields(t, Put(s', c, v))
  }

  lemma PutKeeps(s: NodeState, c: L.Container, v: NodeState)
    ensures var t := Put(s, c, v);
            && t.id == s.id && t.nextMsgId == s.nextMsgId && t.exited == s.exited && t.clock == s.clock
            && t.acked == s.acked
  {
  }

  lemma MulticastingPut(s: NodeState, data: nat, c: L.Container, v: NodeState)
    requires c !in {L.DataHistory, L.AckHistory, L.DeliveryQueue}
    ensures SameFields(Multicasting(Put(s, c, v), data), Put(Multicasting(s, data), c, v))
    ensures Put(Multicasting(s, data), c, s) == Multicasting(s, data)
  {
    hide Inserted;
  }

  /** The fields in which `TakingIn` differs from the state before. */
  lemma TakingInFields(s: NodeState, d: DataMessage, t: NodeState)
    requires t.queue == TakingIn(s, d).queue && t.acked == TakingIn(s, d).acked && t.clock == s.clock + 1
    requires t.id == s.id && t.nextMsgId == s.nextMsgId && t.exited == s.exited
    requires t.delivered == s.delivered && t.seqHistory == s.seqHistory
    requires t.ackHistory == s.ackHistory && t.dataHistory == s.dataHistory
    ensures SameFields(TakingIn(s, d), t)
  {
  }

  lemma TakingInPut(s: NodeState, d: DataMessage, c: L.Container, v: NodeState)
    requires !c.DeliveryQueue?
    ensures SameFields(TakingIn(Put(s, c, v), d), Put(TakingIn(s, d), c, v))
    ensures Put(TakingIn(s, d), c, s) == TakingIn(s, d)
  {
    hide SameFields;
    var t := Put(TakingIn(s, d), c, v);
    assert t.clock == s.clock + 1 && t.queue == TakingIn(s, d).queue && t.acked == TakingIn(s, d).acked;
    TakingInFields(Put(s, c, v), d, t);
  }

  lemma MulticastIgnores(hosts: set<nat>, s: NodeState, data: nat, s': NodeState, sent: set<Packet>,
                         c: L.Container, v: NodeState)
    requires NodeNext(hosts, s, Multicast(data), s', sent)
    requires c !in {L.DataHistory, L.AckHistory, L.DeliveryQueue}
    ensures Ignores(hosts, s, Multicast(data), s', sent, c, v) && Put(s', c, s) == s'
  {
    hide NodeNext, Multicasting, Put, SameFields, Others;
    MulticastIs(hosts, s, data, s', sent);
    PutKeeps(s, c, v);
    MulticastingPut(s, data, c, v);
    CanMulticast(hosts, Put(s, c, v), data);
  }

  lemma MulticastIs(hosts: set<nat>, s: NodeState, data: nat, s': NodeState, sent: set<Packet>)
    requires NodeNext(hosts, s, Multicast(data), s', sent)
    ensures s' == Multicasting(s, data) && !s.exited
    ensures sent == Others(hosts, s.id, DataPayload(DataMessage(s.id, s.nextMsgId, data)))
  {
    hide Others, Inserted;
  }

  lemma OldDataIgnores(hosts: set<nat>, s: NodeState, d: DataMessage, s': NodeState, sent: set<Packet>,
                       c: L.Container, v: NodeState)
    requires NodeNext(hosts, s, OnData(d), s', sent) && Acked(s, d.Key())
    ensures Ignores(hosts, s, OnData(d), s', sent, c, v) && Put(s', c, s) == s'
  {
    assert s' == s && !s.exited;
    var a :| a in s.acked && a.Key() == d.Key() && sent == {Packet(d.sender, AckPayload(a))};
    hide NodeNext;
    var t := Put(s, c, v);
    CanAnswer(hosts, t, d, a);
    assert SameFields(t, Put(s', c, v));
  }

  lemma TakingInIs(hosts: set<nat>, s: NodeState, d: DataMessage, s': NodeState, sent: set<Packet>)
    requires NodeNext(hosts, s, OnData(d), s', sent) && !Acked(s, d.Key())
    ensures s' == TakingIn(s, d) && !s.exited && sent == {Packet(d.sender, AckPayload(AckFor(s, d)))}
  {
  }

  lemma NewDataIgnores(hosts: set<nat>, s: NodeState, d: DataMessage, s': NodeState, sent: set<Packet>,
                       c: L.Container, v: NodeState)
    requires NodeNext(hosts, s, OnData(d), s', sent) && !Acked(s, d.Key()) && !c.DeliveryQueue?
    ensures Ignores(hosts, s, OnData(d), s', sent, c, v) && Put(s', c, s) == s'
  {
    hide NodeNext, TakingIn, Put, SameFields;
    TakingInIs(hosts, s, d, s', sent);
    PutKeeps(s, c, v);
    TakingInPut(s, d, c, v);
    CanTakeIn(hosts, Put(s, c, v), d);
  }

  lemma FinalAckIgnores(hosts: set<nat>, s: NodeState, a: AckMessage, s': NodeState, sent: set<Packet>,
                        c: L.Container, v: NodeState)
    requires NodeNext(hosts, s, OnAck(a), s', sent) && a.proposer !in Row(s, a.msgId)
    requires |WithAck(Row(s, a.msgId), a.proposer, a.proposedSeq)| == |hosts|
    requires c !in {L.AckHistory, L.SeqMessageHistory, L.DeliveryQueue, L.DeliveredMessage}
    ensures Ignores(hosts, s, OnAck(a), s', sent, c, v) && Put(s', c, s) == s'
  {
    hide FinalisedAndDelivered, MaxProposal, WithAck, Others;
    assert NodeNext(hosts, Put(s, c, v), OnAck(a), Put(s', c, v), sent);
  }

  lemma EarlyAckIgnores(hosts: set<nat>, s: NodeState, a: AckMessage, s': NodeState, sent: set<Packet>,
                        c: L.Container, v: NodeState)
    requires NodeNext(hosts, s, OnAck(a), s', sent) && a.proposer !in Row(s, a.msgId) && !c.AckHistory?
    requires |WithAck(Row(s, a.msgId), a.proposer, a.proposedSeq)| != |hosts|
    ensures Ignores(hosts, s, OnAck(a), s', sent, c, v) && Put(s', c, s) == s'
  {
    hide FinalisedAndDelivered, MaxProposal, WithAck;
    assert s' == Collecting(s, a) && sent == {} && !s.exited;
    SameRow(s, c, v, a.msgId);
    CanCollect(hosts, Put(s, c, v), a);
    assert SameFields(Collecting(Put(s, c, v), a), Put(s', c, v));
  }

  lemma SameRow(s: NodeState, c: L.Container, v: NodeState, k: nat)
    requires !c.AckHistory?
    ensures Row(Put(s, c, v), k) == Row(s, k)
  {
  }

  lemma LateAckIgnores(hosts: set<nat>, s: NodeState, a: AckMessage, s': NodeState, sent: set<Packet>,
                       c: L.Container, v: NodeState)
    requires NodeNext(hosts, s, OnAck(a), s', sent) && a.proposer in Row(s, a.msgId) && !c.AckHistory?
    requires |Row(s, a.msgId)| == |hosts| ==> Known(s, a.Key()) && !c.SeqMessageHistory?
    ensures Ignores(hosts, s, OnAck(a), s', sent, c, v) && Put(s', c, s) == s'
  {
    hide FinalisedAndDelivered, MaxProposal, WithAck, Row;
    var t := Put(s, c, v);
    SameRow(s, c, v, a.msgId);
    if |Row(s, a.msgId)| == |hosts| {
      var m :| m in s.seqHistory && m.Key() == a.Key() && sent == {Packet(a.proposer, SeqPayload(m))};
      CanRepeat(hosts, t, a, m);
    } else {
      CanIgnore(hosts, t, a);
    }
    assert SameFields(t, Put(s', c, v));
  }

  lemma NewSeqIgnores(hosts: set<nat>, s: NodeState, m: SeqMessage, s': NodeState, sent: set<Packet>,
                      c: L.Container, v: NodeState)
    requires NodeNext(hosts, s, OnSeq(m), s', sent) && Queued(s, m.Key())
    requires c !in {L.DeliveryQueue, L.DeliveredMessage, L.SeqMessageHistory}
    ensures Ignores(hosts, s, OnSeq(m), s', sent, c, v) && Put(s', c, s) == s'
  {
    hide FinalisedAndDelivered;
    assert s' == Learning(s, m, s'.queue, s'.delivered) && sent == {};
    CanLearn(hosts, Put(s, c, v), m, s'.queue, s'.delivered);
    assert SameFields(Learning(Put(s, c, v), m, s'.queue, s'.delivered), Put(s', c, v));
  }

  lemma OldSeqIgnores(hosts: set<nat>, s: NodeState, m: SeqMessage, s': NodeState, sent: set<Packet>,
                      c: L.Container, v: NodeState)
    requires NodeNext(hosts, s, OnSeq(m), s', sent) && !Queued(s, m.Key())
    requires c !in {L.DeliveryQueue, L.DeliveredMessage}
    ensures Ignores(hosts, s, OnSeq(m), s', sent, c, v) && Put(s', c, s) == s'
  {
    hide FinalisedAndDelivered;
    var t := Put(s, c, v);
    var known := exists i :: 0 <= i < |s.delivered| && s.delivered[i].Key() == m.Key();
    assert s' == (if known then s else s.(exited := true)) && sent == {};
    CanPassOver(hosts, t, m);
    assert SameFields(if known then t else t.(exited := true), Put(s', c, v));
  }

  lemma TimeoutIgnores(hosts: set<nat>, s: NodeState, e: Event, s': NodeState, sent: set<Packet>,
                       c: L.Container, v: NodeState)
    requires NodeNext(hosts, s, e, s', sent) && CopyKept(s, e, c, v)
    requires (e.DataTimeout? && !c.AckHistory?) || (e.AckTimeout? && !c.SeqMessageHistory?)
    ensures Ignores(hosts, s, e, s', sent, c, v) && Put(s', c, s) == s'
  {
    assert NodeNext(hosts, Put(s, c, v), e, Put(s', c, v), sent);
  }

  lemma EventIgnores(r: L.Routine, hosts: set<nat>, s: NodeState, e: Event, s': NodeState, sent: set<Packet>,
                     c: L.Container, v: NodeState)
    requires NodeNext(hosts, s, e, s', sent) && Handles(r, hosts, s, e)
    requires c !in L.Touches(r) && CopyKept(s, e, c, v)
    ensures Ignores(hosts, s, e, s', sent, c, v) && Put(s', c, s) == s'
  {
    hide NodeNext, Ignores, CopyKept, WithAck, Row;
    match e
    case Multicast(data) => MulticastIgnores(hosts, s, data, s', sent, c, v);
    case OnData(d) =>
      if Acked(s, d.Key()) {
        OldDataIgnores(hosts, s, d, s', sent, c, v);
      } else {
        NewDataIgnores(hosts, s, d, s', sent, c, v);
      }
    case OnAck(a) =>
      if a.proposer in Row(s, a.msgId) {
        LateAckIgnores(hosts, s, a, s', sent, c, v);
      } else if |WithAck(Row(s, a.msgId), a.proposer, a.proposedSeq)| == |hosts| {
        FinalAckIgnores(hosts, s, a, s', sent, c, v);
      } else {
        EarlyAckIgnores(hosts, s, a, s', sent, c, v);
      }
    case OnSeq(m) =>
      if Queued(s, m.Key()) {
        NewSeqIgnores(hosts, s, m, s', sent, c, v);
      } else {
        OldSeqIgnores(hosts, s, m, s', sent, c, v);
      }
    case DataTimeout(_, _) => TimeoutIgnores(hosts, s, e, s', sent, c, v);
    case AckTimeout(_) => TimeoutIgnores(hosts, s, e, s', sent, c, v);
  }

  /** Whatever a routine does not touch makes no difference to the event it handles, and is left alone. */
  lemma UntouchedIsIgnored(r: L.Routine, hosts: set<nat>, s: NodeState, e: Event, s': NodeState, sent: set<Packet>,
                           c: L.Container, v: NodeState)
    requires NodeNext(hosts, s, e, s', sent) && Handles(r, hosts, s, e)
    requires c !in L.Touched(L.Ops(r)) && CopyKept(s, e, c, v)
    ensures Ignores(hosts, s, e, s', sent, c, v) && Put(s', c, s) == s'
  {
    hide NodeNext, Ignores, CopyKept, Handles;
    L.OpsTouch(r);
    EventIgnores(r, hosts, s, e, s', sent, c, v);
  }

  lemma OwnCopy(hosts: set<nat>, s: NodeState, e: Event, s': NodeState, sent: set<Packet>, c: L.Container)
    requires NodeNext(hosts, s, e, s', sent)
    ensures CopyKept(s, e, c, s)
  {
    hide HandleAck, HandleSeq, HandleData, DoMulticast, HandleAckTimeout;
  }

  /** In particular what an event changes is touched by its routine. */
  lemma ChangedIsTouched(r: L.Routine, hosts: set<nat>, s: NodeState, e: Event, s': NodeState, sent: set<Packet>,
                         c: L.Container)
    requires NodeNext(hosts, s, e, s', sent) && Handles(r, hosts, s, e) && s' != Put(s', c, s)
    ensures c in L.Touched(L.Ops(r))
  {
    hide NodeNext, Handles, Put;
    L.OpsTouch(r);
    if c !in L.Touches(r) { EventIgnores(r, hosts, s, e, s', sent, c, s) by { OwnCopy(hosts, s, e, s', sent, c); } }
  }

  // ---------- the snapshot ----------

  /** The receiver buffers a packet only while it holds the mutexes of the flag and of the buffer. */
  lemma BufferingIsTouched(l: Recording.Lazy, numHosts: nat, p: Payload)
    requires Recording.LazyStep(l, numHosts, Recording.PacketArrives(p)) != l
    ensures L.RecordMessages in L.Touched(L.Ops(L.ReceivePacket(l.recording)))
    ensures L.InboundMessageBuffer in L.Touched(L.Ops(L.ReceivePacket(l.recording)))
  {
    L.OpsTouch(L.ReceivePacket(l.recording));
  }

  /** A marker that empties the buffer or flips the flag has routines for it that hold their mutexes. */
  lemma MarkerIsTouched(l: Recording.Lazy, numHosts: nat, id: nat)
    ensures var l' := Recording.LazyStep(l, numHosts, Recording.MarkerArrives(id));
            && (l'.buffer != l.buffer ==> L.InboundMessageBuffer in L.Touched(L.Ops(L.DrainBuffers)))
            && (l'.recording != l.recording ==> L.RecordMessages in L.Touched(L.Ops(L.SwitchRecording)))
  {
    L.OpsTouch(L.DrainBuffers);
    L.OpsTouch(L.SwitchRecording);
  }

  /** What the snapshot copies of a process. */
  function LocalState(s: NodeState): (multiset<QueuedMessage>, seq<QueuedMessage>) {
    (s.queue, s.delivered)
  }

  /** The copy of the local state depends only on data whose mutex is held while they are copied. */
  lemma LocalStateIsTouched(s: NodeState, c: L.Container, v: NodeState)
    requires LocalState(Put(s, c, v)) != LocalState(s)
    ensures c in L.Touched(L.Ops(L.RecordLocalState))
  {
    L.OpsTouch(L.RecordLocalState);
  }
}
