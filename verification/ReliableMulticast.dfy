/** The process itself: its fields and handlers, updating an in-place heap, and the proof that
    each handler does what the step relation of NodeSpec allows. Sending is returned as the set
    of packets handed to the network. */
module ReliableMulticastNode {
  import opened Messages
  import opened NodeSpec
  import opened HeapOps
  import opened Delivery
  import opened Moves

  // ---------- scanning the histories ----------

  ghost function AckSet(acks: seq<AckMessage>): set<AckMessage> {
    set a | a in acks
  }

  ghost function SeqSet(finals: seq<SeqMessage>): set<SeqMessage> {
    set m | m in finals
  }

  lemma AckSetAppend(acks: seq<AckMessage>, a: AckMessage)
    ensures AckSet(acks + [a]) == AckSet(acks) + {a}
  {
  }

  lemma SeqSetAppend(finals: seq<SeqMessage>, m: SeqMessage)
    ensures SeqSet(finals + [m]) == SeqSet(finals) + {m}
  {
  }

  datatype Option<T> = None | Some(value: T)

  /** The first ack sent for the message, if any. */
  method FindAck(acks: seq<AckMessage>, key: MsgKey) returns (found: Option<AckMessage>)
    ensures found.Some? ==> found.value in AckSet(acks) && found.value.Key() == key
    ensures found.None? ==> forall a :: a in AckSet(acks) ==> a.Key() != key
  {
    for i := 0 to |acks|
      invariant forall j :: 0 <= j < i ==> acks[j].Key() != key
    {
      if acks[i].Key() == key { return Some(acks[i]); }
    }
    return None;
  }

  /** The first sequence message known for the message, if any. */
  method FindSeq(finals: seq<SeqMessage>, key: MsgKey) returns (found: Option<SeqMessage>)
    ensures found.Some? ==> found.value in SeqSet(finals) && found.value.Key() == key
    ensures found.None? ==> forall m :: m in SeqSet(finals) ==> m.Key() != key
  {
    for i := 0 to |finals|
      invariant forall j :: 0 <= j < i ==> finals[j].Key() != key
    {
      if finals[i].Key() == key { return Some(finals[i]); }
    }
    return None;
  }

  method IsDelivered(delivered: seq<QueuedMessage>, key: MsgKey) returns (found: bool)
    ensures found <==> exists i :: 0 <= i < |delivered| && delivered[i].Key() == key
  {
    for i := 0 to |delivered|
      invariant forall j :: 0 <= j < i ==> delivered[j].Key() != key
    {
      if delivered[i].Key() == key { return true; }
    }
    return false;
  }

  // ---------- the decision ----------

  lemma {:induction false} Smallest(keys: set<nat>) returns (k: nat)
    requires keys != {}
    ensures k in keys && forall j :: j in keys ==> k <= j
    decreases |keys|
  {
    k :| k in keys;
    var rest := keys - {k};
    assert forall i :: i in keys ==> i == k || i in rest;
    if rest != {} {
      var j := Smallest(rest);
      if j < k { k := j; }
    }
  }

  /** The key at which an ordered map is entered. */
  method FirstKey(keys: set<nat>) returns (k: nat)
    requires keys != {}
    ensures k in keys && forall j :: j in keys ==> k <= j
  {
    ghost var least := Smallest(keys);
    k :| k in keys && forall j :: j in keys ==> k <= j;
  }

  lemma OneMoreProposal(row: map<nat, nat>, k: nat, v: nat)
    requires forall j :: j in row ==> j < k
    ensures MaxProposal(WithAck(row, k, v)) == if v > MaxProposal(row).0 then (v, k) else MaxProposal(row)
  {
    var row' := WithAck(row, k, v);
    assert k in row'.Keys && forall j :: j in row'.Keys ==> j <= k;
    assert LargestKey(row'.Keys) == k;
    assert row' - {k} == row;
  }

  lemma NextProposal(row: map<nat, nat>, todo: set<nat>, k: nat)
    requires todo <= row.Keys && k in todo && forall j :: j in todo ==> k <= j
    requires forall i, j :: i in row - todo && j in todo ==> i < j
    ensures row - (todo - {k}) == WithAck(row - todo, k, row[k])
    ensures MaxProposal(row - (todo - {k}))
            == if row[k] > MaxProposal(row - todo).0 then (row[k], k) else MaxProposal(row - todo)
    ensures forall i, j :: i in row - (todo - {k}) && j in todo - {k} ==> i < j
  {
    assert row - (todo - {k}) == WithAck(row - todo, k, row[k]);
    OneMoreProposal(row - todo, k, row[k]);
  }

  /** The running maximum over the proposers in ascending order. */
  method GetMaxSequence(row: map<nat, nat>) returns (resultSeq: nat, resultProposer: nat)
    ensures (resultSeq, resultProposer) == MaxProposal(row)
  {
    hide MaxProposal;
    resultSeq, resultProposer := 0, 0;
    var todo := row.Keys;
    EmptyRow(row - todo);
    while todo != {}
      invariant todo <= row.Keys
      invariant forall i, j :: i in row - todo && j in todo ==> i < j
      invariant (resultSeq, resultProposer) == MaxProposal(row - todo)
      decreases |todo|
    {
      var k := FirstKey(todo);
      NextProposal(row, todo, k);
      if row[k] > resultSeq {
        resultSeq, resultProposer := row[k], k;
      }
      todo := todo - {k};
    }
    assert row - todo == row;
  }

  lemma EmptyRow(row: map<nat, nat>)
    requires row == map[]
    ensures MaxProposal(row) == (0, 0)
  {
  }

  // ---------- the process ----------

  ghost function IdSet(ids: seq<nat>): set<nat> {
    set h | h in ids
  }

  ghost predicate Distinct(ids: seq<nat>) {
    forall i, j :: 0 <= i < j < |ids| ==> ids[i] != ids[j]
  }

  lemma {:induction false} DistinctSize(ids: seq<nat>)
    requires Distinct(ids)
    ensures |IdSet(ids)| == |ids|
  {
    if ids != [] {
      var rest := ids[..|ids| - 1];
      DistinctSize(rest);
      assert IdSet(ids) == IdSet(rest) + {ids[|ids| - 1]};
    }
  }

  lemma Replaced(s: seq<QueuedMessage>, i: nat, y: QueuedMessage)
    requires i < |s|
    ensures multiset(s[i := y]) == multiset(s) - multiset{s[i]} + multiset{y}
    ensures s[i] in multiset(s)
  {
  }

  lemma Appended(s: seq<QueuedMessage>, t: seq<QueuedMessage>, x: QueuedMessage)
    requires |t| == |s| + 1 && t[..|s|] == s && t[|s|] == x
    ensures multiset(t) == multiset(s) + multiset{x}
  {
    assert t == s + [x];
  }

  lemma SameFirst(s: seq<QueuedMessage>, t: seq<QueuedMessage>, n: nat)
    requires n <= |t| && s == t[..n]
    ensures n > 0 ==> t[0] == s[0]
  {
  }

  lemma OneLonger(s: seq<QueuedMessage>, t: seq<QueuedMessage>, n: nat)
    requires n < |t| && s == t[..n]
    ensures multiset(t[..n + 1]) == multiset(s) + multiset{t[n]}
  {
    assert t[..n + 1] == s + [t[n]];
  }

  lemma FrontIsFirst(s: seq<QueuedMessage>)
    requires IsHeap(s) && s != []
    ensures s[0] in multiset(s) && forall y :: y in multiset(s) ==> !Cmp(s[0], y)
  {
    forall y | y in multiset(s) ensures !Cmp(s[0], y) {
      var i :| 0 <= i < |s| && s[i] == y;
      FrontIsSmallest(s, i);
    }
  }

  lemma NotRekeyed(q: multiset<QueuedMessage>, key: MsgKey, f: nat, fp: nat, q': multiset<QueuedMessage>)
    requires Rekeyed(q, key, f, fp, q') && !exists x :: x in q && x.Key() == key
    ensures q' == q
  {
  }

  lemma FrontStops(s: seq<QueuedMessage>)
    requires IsHeap(s) && (s != [] ==> s[0].status.Undeliverable?)
    ensures Stopped(multiset(s))
  {
    if s != [] { FrontIsFirst(s); }
  }

  class ReliableMulticast {
    const currentContainerId: nat
    const hostIds: seq<nat>
    var currMsgId: nat
    var currSeqNumber: nat
    /** The first `queueSize` elements are the delivery queue. */
    var deliveryQueue: array<QueuedMessage>
    var queueSize: nat
    var deliveredMessage: seq<QueuedMessage>
    var alreadyAckedMessages: seq<AckMessage>
    var seqMessageHistory: seq<SeqMessage>
    var ackHistory: map<nat, map<nat, nat>>
    var dataHistory: map<nat, nat>
    /** Set where the program would exit. */
    var exited: bool
    /** History only: see `NodeSpec.Acceptance` and `NodeSpec.Learnt`. */
    ghost var accepted: Ledger
    ghost var learnt: Learnt

    /** The delivery queue is a heap. */
    ghost predicate IsQueue()
      reads `deliveryQueue, `queueSize, deliveryQueue
    {
      && queueSize <= deliveryQueue.Length
      && IsHeap(deliveryQueue[..queueSize])
      && |IdSet(hostIds)| == |hostIds|
    }

    /** Between events, moreover, whatever is in front of the heap is not deliverable. */
    ghost predicate Valid()
      reads `deliveryQueue, `queueSize, deliveryQueue
    {
      IsQueue() && (queueSize > 0 ==> deliveryQueue[0].status.Undeliverable?)
    }

    ghost function Queue(): multiset<QueuedMessage>
      requires queueSize <= deliveryQueue.Length
      reads `deliveryQueue, `queueSize, deliveryQueue
    {
      multiset(deliveryQueue[..queueSize])
    }

    /** The state of the process as the step relation sees it. */
    ghost function View(): NodeState
      requires queueSize <= deliveryQueue.Length
      reads this, deliveryQueue
    {
      NodeState(currentContainerId, currSeqNumber, currMsgId, Queue(), deliveredMessage,
                AckSet(alreadyAckedMessages), SeqSet(seqMessageHistory), ackHistory, dataHistory, exited,
                accepted, learnt)
    }

    constructor (id: nat, hosts: seq<nat>)
      requires Distinct(hosts)
      ensures Valid() && fresh(deliveryQueue)
      ensures View() == InitialNode(id) && currentContainerId == id && hostIds == hosts
    {
      DistinctSize(hosts);
      currentContainerId, hostIds := id, hosts;
      currMsgId, currSeqNumber := 0, 1;
      deliveryQueue := new QueuedMessage[0];
      queueSize := 0;
      deliveredMessage, alreadyAckedMessages, seqMessageHistory := [], [], [];
      ackHistory, dataHistory := map[], map[];
      exited := false;
      accepted, learnt := map[], map[];
    }

    // ---------- the delivery queue ----------

    /** Makes room for one more element. */
    method Grow()
      requires IsQueue()
      modifies this`deliveryQueue
      ensures queueSize < deliveryQueue.Length && fresh(deliveryQueue)
      ensures deliveryQueue[..queueSize] == old(deliveryQueue[..queueSize])
    {
      var bigger := new QueuedMessage[2 * queueSize + 1](
        _ => QueuedMessage(0, Undeliverable, 0, 0, 0, 0));
      for i := 0 to queueSize
        invariant deliveryQueue == old(deliveryQueue) && deliveryQueue[..] == old(deliveryQueue[..])
        invariant bigger[..i] == deliveryQueue[..i]
      {
        bigger[i] := deliveryQueue[i];
      }
      deliveryQueue := bigger;
    }

    /** Makes sure that there is room for one more element. */
    method Reserve()
      requires IsQueue()
      modifies this`deliveryQueue
      ensures queueSize < deliveryQueue.Length && (deliveryQueue == old(deliveryQueue) || fresh(deliveryQueue))
      ensures deliveryQueue[..queueSize] == old(deliveryQueue[..queueSize])
    {
      if queueSize == deliveryQueue.Length { Grow(); }
    }

    /** Stores `qm` behind the queue. */
    method Store(qm: QueuedMessage)
      requires queueSize < deliveryQueue.Length
      modifies this`queueSize, deliveryQueue
      ensures queueSize == old(queueSize) + 1 <= deliveryQueue.Length
      ensures deliveryQueue[..queueSize - 1] == old(deliveryQueue[..queueSize]) && deliveryQueue[queueSize - 1] == qm
      ensures queueSize > 1 ==> deliveryQueue[0] == old(deliveryQueue[0])
    {
      deliveryQueue[queueSize] := qm;
      queueSize := queueSize + 1;
    }

    /** `push_back`. */
    method Append(qm: QueuedMessage)
      requires IsQueue()
      modifies this`deliveryQueue, this`queueSize, deliveryQueue
      ensures queueSize == old(queueSize) + 1 <= deliveryQueue.Length
      ensures deliveryQueue == old(deliveryQueue) || fresh(deliveryQueue)
      ensures deliveryQueue[..queueSize - 1] == old(deliveryQueue[..queueSize]) && deliveryQueue[queueSize - 1] == qm
      ensures queueSize > 1 ==> deliveryQueue[0] == old(deliveryQueue[0])
      ensures multiset(deliveryQueue[..queueSize]) == multiset(old(deliveryQueue[..queueSize])) + multiset{qm}
    {
      SizeFits();
      ghost var before := deliveryQueue[..queueSize];
      SameFirst(before, deliveryQueue[..], queueSize);
      hide IsQueue;
      Reserve();
      SameFirst(before, deliveryQueue[..], queueSize);
      Store(qm);
      OneLonger(before, deliveryQueue[..], queueSize - 1);
    }

    lemma SizeFits()
      requires IsQueue()
      ensures queueSize <= deliveryQueue.Length
    {
    }

    lemma ValidFits()
      requires Valid()
      ensures queueSize <= deliveryQueue.Length
    {
    }

    method PushMsgToDeliveryqueue(qm: QueuedMessage)
      requires Valid()
      modifies this`deliveryQueue, this`queueSize, deliveryQueue
      ensures IsQueue() && (qm.status.Undeliverable? ==> Valid())
      ensures deliveryQueue == old(deliveryQueue) || fresh(deliveryQueue)
      ensures Queue() == old(Queue()) + multiset{qm}
    {
      hide IsHeap, IdSet;
      Append(qm);
      PushHeap(deliveryQueue, queueSize);
    }

    /** Finalises the entry with index `i` and makes the queue a heap again. */
    method FinaliseAt(i: nat, seqToChange: nat, seqProposer: nat)
      requires IsQueue() && i < queueSize
      modifies deliveryQueue
      ensures IsQueue() && old(deliveryQueue[i]) in old(Queue())
      ensures Queue() == old(Queue()) - multiset{old(deliveryQueue[i])}
                         + multiset{old(deliveryQueue[i]).Finalised(seqToChange, seqProposer)}
    {
      hide IsHeap;
      ghost var before := deliveryQueue[..queueSize];
      deliveryQueue[i] := deliveryQueue[i].Finalised(seqToChange, seqProposer);
      assert deliveryQueue[..queueSize] == before[i := deliveryQueue[i]];
      Replaced(before, i, deliveryQueue[i]);
      MakeHeap(deliveryQueue, queueSize);
    }

    lemma InQueue(i: nat)
      requires i < queueSize <= deliveryQueue.Length
      ensures deliveryQueue[i] in Queue()
    {
      assert deliveryQueue[i] == deliveryQueue[..queueSize][i];
    }

    lemma NotInQueue(key: MsgKey)
      requires queueSize <= deliveryQueue.Length && forall j :: 0 <= j < queueSize ==> deliveryQueue[j].Key() != key
      ensures forall x :: x in Queue() ==> x.Key() != key
    {
    }

    /** Returns 0 if the message was found in the queue and finalised, and -1 otherwise. */
    method ChangeQueuedMsgSeqAndStatus(key: MsgKey, seqToChange: nat, seqProposer: nat) returns (rv: int)
      requires IsQueue()
      modifies deliveryQueue
      ensures IsQueue()
      ensures rv == if exists x :: x in old(Queue()) && x.Key() == key then 0 else -1
      ensures Rekeyed(old(Queue()), key, seqToChange, seqProposer, Queue())
      ensures rv == -1 ==> deliveryQueue[..] == old(deliveryQueue[..])
    {
      hide IsHeap, Queue;
      for i := 0 to queueSize
        invariant forall j :: 0 <= j < i ==> deliveryQueue[j].Key() != key
        invariant deliveryQueue[..] == old(deliveryQueue[..]) && Queue() == old(Queue())
      {
        if deliveryQueue[i].Key() == key {
          InQueue(i);
          FinaliseAt(i, seqToChange, seqProposer);
          return 0;
        }
      }
      NotInQueue(key);
      return -1;
    }

    /** Delivers the front of the queue. */
    method DeliverFront() returns (front: QueuedMessage)
      requires IsQueue() && queueSize > 0
      modifies deliveryQueue, this`queueSize, this`deliveredMessage
      ensures IsQueue() && queueSize == old(queueSize) - 1 && front == old(deliveryQueue[0])
      ensures deliveredMessage == old(deliveredMessage) + [front]
      ensures old(Queue()) == Queue() + multiset{front}
      ensures forall y :: y in old(Queue()) ==> !Cmp(front, y)
    {
      front := deliveryQueue[0];
      FrontIsFirst(deliveryQueue[..queueSize]);
      deliveredMessage := deliveredMessage + [front];
      PopHeap(deliveryQueue, queueSize);
      Appended(deliveryQueue[..queueSize - 1], deliveryQueue[..queueSize], front);
      queueSize := queueSize - 1;
    }

    lemma ValidStops()
      requires Valid()
      ensures Stopped(Queue())
    {
      FrontStops(deliveryQueue[..queueSize]);
    }

    /** Delivers from the front until the front is not deliverable. */
    method DeliverMsgFromDeliveryqueue() returns (ghost out: seq<QueuedMessage>)
      requires IsQueue()
      modifies deliveryQueue, this`queueSize, this`deliveredMessage
      ensures Valid()
      ensures deliveredMessage == old(deliveredMessage) + out
      ensures Drains(old(Queue()), out, Queue())
    {
      hide IsQueue, Queue, Popped, Stopped;
      SizeFits();
      out := [];
      PoppedNothing(Queue());
      while queueSize > 0 && deliveryQueue[0].status.Deliverable?
        invariant IsQueue() && queueSize <= deliveryQueue.Length
        invariant deliveredMessage == old(deliveredMessage) + out
        invariant Popped(old(Queue()), out, Queue())
        decreases queueSize
      {
        ghost var before := Queue();
        var front := DeliverFront();
        SizeFits();
        PopOne(old(Queue()), out, before, front, Queue());
        out := out + [front];
      }
      ValidStops();
    }

    // ---------- the handlers ----------

    /** Sends to every host but this one. */
    method Broadcast(payload: Payload) returns (sent: set<Packet>)
      ensures sent == Others(IdSet(hostIds), currentContainerId, payload)
    {
      sent := {};
      for i := 0 to |hostIds|
        invariant sent == Others(IdSet(hostIds[..i]), currentContainerId, payload)
      {
        assert hostIds[..i + 1] == hostIds[..i] + [hostIds[i]];
        if hostIds[i] != currentContainerId {
          sent := sent + {Packet(hostIds[i], payload)};
        }
      }
      assert hostIds[..|hostIds|] == hostIds;
    }

    /** Numbers a new message and records it with this process's own proposal. */
    method RecordOwnMessage(data: nat) returns (dataMessage: DataMessage)
      modifies `currMsgId, `currSeqNumber, `dataHistory, `ackHistory
      ensures dataMessage == DataMessage(currentContainerId, old(currMsgId), data)
      ensures currMsgId == old(currMsgId) + 1 && currSeqNumber == old(currSeqNumber) + 1
      ensures dataHistory == Inserted(old(dataHistory), old(currMsgId), data)
      ensures ackHistory == Inserted(old(ackHistory), old(currMsgId), map[currentContainerId := currSeqNumber])
    {
      dataMessage := DataMessage(currentContainerId, currMsgId, data);
      currMsgId := currMsgId + 1;
      if dataMessage.msgId !in dataHistory {
        dataHistory := dataHistory[dataMessage.msgId := data];
      }
      currSeqNumber := currSeqNumber + 1;
      if dataMessage.msgId !in ackHistory {
        ackHistory := ackHistory[dataMessage.msgId := map[currentContainerId := currSeqNumber]];
      }
    }

    /** Takes in a new message of this process. */
    method TakeInOwn(data: nat) returns (dataMessage: DataMessage)
      requires Valid()
      modifies `currMsgId, `currSeqNumber, `dataHistory, `ackHistory, `accepted
      modifies `deliveryQueue, `queueSize, deliveryQueue
      ensures Valid() && (deliveryQueue == old(deliveryQueue) || fresh(deliveryQueue))
      ensures dataMessage == DataMessage(currentContainerId, old(currMsgId), data)
      ensures View() == Multicasting(old(View()), data)
    {
      hide IsHeap, Queue, Inserted, AckSet, SeqSet, Valid, IsQueue, IdSet, Multicasting;
      ValidFits();
      dataMessage := RecordOwnMessage(data);
      PushMsgToDeliveryqueue(QueuedMessage(currSeqNumber, Undeliverable, dataMessage.sender, dataMessage.msgId,
                                           dataMessage.data, currentContainerId));
      ValidFits();
      accepted := accepted[dataMessage.Key() := Acceptance(currSeqNumber, |deliveredMessage|, data)];
      MulticastingIs(old(View()), View(), data);
    }

    method MulticastDatamsg(data: nat) returns (sent: set<Packet>)
      requires Valid() && !exited
      modifies this, deliveryQueue
      ensures Valid() && (deliveryQueue == old(deliveryQueue) || fresh(deliveryQueue))
      ensures NodeNext(IdSet(hostIds), old(View()), Multicast(data), View(), sent)
    {
      hide Others, NodeNext, Queue, Multicasting, AckSet, SeqSet, Valid, IsQueue, IdSet;
      ValidFits();
      var dataMessage := TakeInOwn(data);
      sent := Broadcast(DataPayload(dataMessage));
      CanMulticast(IdSet(hostIds), old(View()), data);
    }

    /** Queues a message that has not been acked yet and acks it. */
    method TakeIn(d: DataMessage) returns (sent: set<Packet>)
      requires Valid() && !exited && forall a :: a in AckSet(alreadyAckedMessages) ==> a.Key() != d.Key()
      modifies this, deliveryQueue
      ensures Valid() && (deliveryQueue == old(deliveryQueue) || fresh(deliveryQueue))
      ensures NodeNext(IdSet(hostIds), old(View()), OnData(d), View(), sent)
    {
      hide IsHeap, Queue, AckSet, SeqSet, NodeNext, Valid, IsQueue, IdSet;
      ValidFits();
      PushMsgToDeliveryqueue(QueuedMessage(currSeqNumber, Undeliverable, d.sender, d.msgId, d.data,
                                           currentContainerId));
      ValidFits();
      var ackMessage := AckMessage(d.sender, d.msgId, currSeqNumber, currentContainerId);
      AckSetAppend(alreadyAckedMessages, ackMessage);
      alreadyAckedMessages := alreadyAckedMessages + [ackMessage];
      accepted := accepted[d.Key() := Acceptance(currSeqNumber, |deliveredMessage|, d.data)];
      sent := {Packet(d.sender, AckPayload(ackMessage))};
      currSeqNumber := currSeqNumber + 1;
      CanTakeIn(IdSet(hostIds), old(View()), d);
    }

    method HandleDatamsg(d: DataMessage) returns (sent: set<Packet>)
      requires Valid() && !exited
      modifies this, deliveryQueue
      ensures Valid() && (deliveryQueue == old(deliveryQueue) || fresh(deliveryQueue))
      ensures NodeNext(IdSet(hostIds), old(View()), OnData(d), View(), sent)
    {
      hide IsHeap, Queue, AckSet, SeqSet, NodeNext;
      var am := FindAck(alreadyAckedMessages, d.Key());
      if am.Some? {
        CanAnswer(IdSet(hostIds), View(), d, am.value);
        return {Packet(d.sender, AckPayload(am.value))};
      }
      sent := TakeIn(d);
    }

    /** Finalises the message of `m`, if it is queued, and delivers what it can. */
    method FinaliseAndDeliver(m: SeqMessage) returns (rv: int)
      requires Valid()
      modifies deliveryQueue, `queueSize, `deliveredMessage, `learnt
      ensures Valid()
      ensures rv == -1 <==> !exists x :: x in old(Queue()) && x.Key() == m.Key()
      ensures FinalisedAndDelivered(old(Queue()), old(deliveredMessage), m.Key(), m.finalSeq, m.finalSeqProposer,
                                    Queue(), deliveredMessage)
      ensures learnt == Noted(old(learnt), m.Key(), |old(deliveredMessage)|)
    {
      hide IsHeap, Rekeyed, Drains;
      rv := ChangeQueuedMsgSeqAndStatus(m.Key(), m.finalSeq, m.finalSeqProposer);
      learnt := Noted(learnt, m.Key(), |deliveredMessage|);
      ghost var q1 := Queue();
      ghost var out := DeliverMsgFromDeliveryqueue();
    }

    /** Finalises the message of `m` and delivers what it can; returns -1 and changes nothing if the
        message is not queued. */
    method FinaliseIfQueued(m: SeqMessage) returns (rv: int)
      requires Valid()
      modifies deliveryQueue, `queueSize, `deliveredMessage, `seqMessageHistory, `learnt
      ensures Valid()
      ensures rv == -1 <==> !exists x :: x in old(Queue()) && x.Key() == m.Key()
      ensures rv == -1 ==> View() == old(View())
      ensures rv != -1 ==>
        && View() == Learning(old(View()), m, Queue(), deliveredMessage)
        && FinalisedAndDelivered(old(Queue()), old(deliveredMessage), m.Key(), m.finalSeq, m.finalSeqProposer,
                                 Queue(), deliveredMessage)
    {
      hide IsHeap, Queue, SeqSet, AckSet, Rekeyed, Drains;
      rv := ChangeQueuedMsgSeqAndStatus(m.Key(), m.finalSeq, m.finalSeqProposer);
      if rv == -1 {
        NotRekeyed(old(Queue()), m.Key(), m.finalSeq, m.finalSeqProposer, Queue());
        return;
      }
      SeqSetAppend(seqMessageHistory, m);
      seqMessageHistory := seqMessageHistory + [m];
      learnt := Noted(learnt, m.Key(), |deliveredMessage|);
      ghost var q1 := Queue();
      ghost var out := DeliverMsgFromDeliveryqueue();
    }

    /** Decides the message of a complete row, tells everybody and delivers what it can. */
    method Decide(a: AckMessage, row: map<nat, nat>) returns (sent: set<Packet>, ghost final: SeqMessage)
      requires Valid()
      modifies deliveryQueue, `queueSize, `deliveredMessage, `seqMessageHistory, `learnt
      ensures Valid()
      ensures final == SeqMessage(a.sender, a.msgId, MaxProposal(row).0, MaxProposal(row).1)
      ensures SeqSet(seqMessageHistory) == SeqSet(old(seqMessageHistory)) + {final}
      ensures FinalisedAndDelivered(old(Queue()), old(deliveredMessage), a.Key(), final.finalSeq,
                                    final.finalSeqProposer, Queue(), deliveredMessage)
      ensures sent == Others(IdSet(hostIds), currentContainerId, SeqPayload(final))
      ensures learnt == Noted(old(learnt), a.Key(), |old(deliveredMessage)|)
    {
      hide IsHeap, Others, FinalisedAndDelivered, MaxProposal, Queue, SeqSet;
      var finalseq, finalseqProposer := GetMaxSequence(row);
      var seqMessage := SeqMessage(a.sender, a.msgId, finalseq, finalseqProposer);
      final := seqMessage;
      SeqSetAppend(seqMessageHistory, seqMessage);
      seqMessageHistory := seqMessageHistory + [seqMessage];
      sent := Broadcast(SeqPayload(seqMessage));
      var rv := FinaliseAndDeliver(seqMessage);
    }

    /** Adds an ack to a row that does not hold it yet; the last one decides the message. */
    method CollectAck(a: AckMessage, row: map<nat, nat>) returns (sent: set<Packet>)
      requires Valid() && !exited && row == Row(View(), a.msgId) && a.proposer !in row
      modifies this, deliveryQueue
      ensures Valid() && deliveryQueue == old(deliveryQueue)
      ensures NodeNext(IdSet(hostIds), old(View()), OnAck(a), View(), sent)
    {
      hide IsHeap, Others, FinalisedAndDelivered, MaxProposal, Queue, AckSet, SeqSet, NodeNext, Row;
      currSeqNumber := currSeqNumber + 1;
      var row' := WithAck(row, a.proposer, a.proposedSeq);
      ackHistory := ackHistory[a.msgId := row'];
      if |row'| == |hostIds| {
        ghost var final;
        sent, final := Decide(a, row');
        CanDecide(IdSet(hostIds), old(View()), a, final, Queue(), deliveredMessage);
      } else {
        sent := {};
        CanCollect(IdSet(hostIds), old(View()), a);
      }
    }

    method HandleAckmsg(a: AckMessage) returns (sent: set<Packet>)
      requires Valid() && !exited
      modifies this, deliveryQueue
      ensures Valid() && deliveryQueue == old(deliveryQueue)
      ensures NodeNext(IdSet(hostIds), old(View()), OnAck(a), View(), sent)
    {
      hide IsHeap, Queue, AckSet, SeqSet, NodeNext;
      var row: map<nat, nat> := if a.msgId in ackHistory then ackHistory[a.msgId] else map[];
      if a.proposer !in row {
        sent := CollectAck(a, row);
        return;
      }
      if |row| != |hostIds| {
        CanIgnore(IdSet(hostIds), View(), a);
        return {};
      }
      var sm := FindSeq(seqMessageHistory, a.Key());
      if sm.Some? {
        CanRepeat(IdSet(hostIds), View(), a, sm.value);
        return {Packet(a.proposer, SeqPayload(sm.value))};
      }
      CanExitOnAck(IdSet(hostIds), View(), a);
      exited := true;
      sent := {};
    }

    method HandleSeqmsg(m: SeqMessage) returns (sent: set<Packet>)
      requires Valid() && !exited
      modifies this, deliveryQueue
      ensures Valid() && deliveryQueue == old(deliveryQueue)
      ensures NodeNext(IdSet(hostIds), old(View()), OnSeq(m), View(), sent)
    {
      hide IsHeap, FinalisedAndDelivered, Queue, AckSet, SeqSet, NodeNext;
      sent := {};
      var rv := FinaliseIfQueued(m);
      if rv == -1 {
        var found := IsDelivered(deliveredMessage, m.Key());
        CanPassOver(IdSet(hostIds), old(View()), m);
        if !found { exited := true; }
      } else {
        CanLearn(IdSet(hostIds), old(View()), m, Queue(), deliveredMessage);
      }
    }

    /** One round of the watchdog of message `msgId` for host `h`. */
    method DatamsgWatchdog(msgId: nat, h: nat) returns (sent: set<Packet>)
      requires Valid() && !exited && msgId in dataHistory && h in hostIds && h != currentContainerId
      modifies this`exited
      ensures Valid()
      ensures NodeNext(IdSet(hostIds), old(View()), DataTimeout(msgId, h), View(), sent)
    {
      if msgId !in ackHistory {
        exited := true;
        return {};
      }
      if h !in ackHistory[msgId] {
        return {Packet(h, DataPayload(DataMessage(currentContainerId, msgId, dataHistory[msgId])))};
      }
      return {};
    }

    /** One round of the watchdog of an ack. */
    method AckmsgWatchdog(a: AckMessage) returns (sent: set<Packet>)
      requires Valid() && !exited && a in alreadyAckedMessages
      ensures NodeNext(IdSet(hostIds), View(), AckTimeout(a), View(), sent)
    {
      var sm := FindSeq(seqMessageHistory, a.Key());
      if sm.Some? {
        return {};
      }
      return {Packet(a.sender, AckPayload(a))};
    }
  }
}
