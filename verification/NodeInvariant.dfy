/** What every event keeps true of a single process, given that the packets it receives
    are honest. Each clause speaks of the fields it needs, so that its proof stays small. */
module NodeInvariant {
  import opened Messages
  import opened NodeSpec

  type Rows = map<nat, map<nat, nat>>

  /** Queued and delivered entries together. */
  ghost function All(s: NodeState): multiset<QueuedMessage> {
    s.queue + multiset(s.delivered)
  }

  ghost predicate Holds(q: multiset<QueuedMessage>, m: MsgKey) {
    exists x :: x in q && x.Key() == m
  }

  /** Each message has at most one entry, and that entry occurs once. */
  ghost predicate Unique(q: multiset<QueuedMessage>) {
    && (forall x :: x in q ==> q[x] == 1)
    && (forall x, y :: x in q && y in q && x.Key() == y.Key() ==> x == y)
  }

  ghost predicate Complete(hosts: set<nat>, rows: Rows, msgId: nat) {
    msgId in rows && |rows[msgId]| == |hosts|
  }

  /** The messages this process multicast, and the proposals collected for them. */
  ghost predicate OwnOk(hosts: set<nat>, id: nat, nextMsgId: nat, rows: Rows, data: map<nat, nat>) {
    && (forall k: nat :: k in rows <==> k < nextMsgId)
    && (forall k: nat :: k in data <==> k < nextMsgId)
    && (forall k :: k in rows ==> id in rows[k] && rows[k].Keys <= hosts)
    && (forall k, h :: k in rows && h in rows[k] ==> rows[k][h] >= 1)
  }

  /** The history agrees with the acks this process has sent ... */
  ghost predicate AckedOk(id: nat, acked: set<AckMessage>, ledger: Ledger) {
    && (forall a :: a in acked ==>
          a.sender != id && a.proposer == id && a.Key() in ledger && ledger[a.Key()].proposal == a.proposedSeq)
    && (forall m :: m in ledger && m.sender != id ==>
          AckMessage(m.sender, m.msgId, ledger[m].proposal, id) in acked)
  }

  /** ... with its self-proposals ... */
  ghost predicate SelfOk(id: nat, rows: Rows, ledger: Ledger) {
    && (forall m :: m in ledger && m.sender == id ==>
          m.msgId in rows && id in rows[m.msgId] && rows[m.msgId][id] == ledger[m].proposal)
    && (forall k :: k in rows ==> MsgKey(id, k) in ledger)
  }

  /** ... and with its clock: numbers can repeat only between one of this process's own
      messages and one of somebody else's. */
  ghost predicate ProposalsOk(id: nat, clock: nat, ledger: Ledger) {
    && clock >= 1
    && (forall m :: m in ledger ==> 1 <= ledger[m].proposal <= clock)
    && (forall m :: m in ledger && m.sender != id ==> ledger[m].proposal < clock)
    && (forall m, m' :: m in ledger && m' in ledger && m != m' && ledger[m].proposal == ledger[m'].proposal
          ==> (m.sender == id) != (m'.sender == id))
  }

  ghost predicate Undecided(seqs: set<SeqMessage>, m: MsgKey) {
    forall d :: d in seqs ==> d.Key() != m
  }

  ghost predicate EntryOk(id: nat, ledger: Ledger, seqs: set<SeqMessage>, x: QueuedMessage) {
    && x.Key() in ledger
    && ledger[x.Key()].proposal <= x.sequenceNumber && ledger[x.Key()].data == x.data
    && match x.status
       case Undeliverable =>
         && x.proposer == id && x.sequenceNumber == ledger[x.Key()].proposal
         && Undecided(seqs, x.Key())
       case Deliverable =>
         SeqMessage(x.sender, x.msgId, x.sequenceNumber, x.proposer) in seqs
  }

  ghost predicate EntriesOk(id: nat, ledger: Ledger, seqs: set<SeqMessage>, all: multiset<QueuedMessage>) {
    forall x :: x in all ==> EntryOk(id, ledger, seqs, x)
  }

  ghost predicate NothingLost(ledger: Ledger, all: multiset<QueuedMessage>) {
    forall m :: m in ledger ==> Holds(all, m)
  }

  ghost predicate DeliveredOk(delivered: seq<QueuedMessage>) {
    forall i :: 0 <= i < |delivered| ==> delivered[i].status.Deliverable?
  }

  /** The decisions this process knows: at most one per message, only for messages it holds ... */
  ghost predicate SeqsOk(ledger: Ledger, seqs: set<SeqMessage>) {
    && (forall d :: d in seqs ==> d.Key() in ledger)
    && (forall d, d' :: d in seqs && d' in seqs && d.Key() == d'.Key() ==> d == d')
  }

  /** ... and, for its own messages, exactly the maxima of its complete rows. */
  ghost predicate DecisionsOk(hosts: set<nat>, id: nat, rows: Rows, seqs: set<SeqMessage>) {
    && (forall d :: d in seqs && d.sender == id ==>
          Complete(hosts, rows, d.msgId) && MaxProposal(rows[d.msgId]) == (d.finalSeq, d.finalSeqProposer))
    && (forall k :: Complete(hosts, rows, k) ==>
          SeqMessage(id, k, MaxProposal(rows[k]).0, MaxProposal(rows[k]).1) in seqs)
  }

  /** `x` had been taken in when the delivery with index `j` was made. */
  ghost predicate TakenInBy(ledger: Ledger, x: QueuedMessage, j: int) {
    x.Key() in ledger && ledger[x.Key()].deliveredBefore <= j
  }

  /** The final number of `x` was known when the delivery with index `j` was made. */
  ghost predicate LearntBy(learnt: Learnt, x: QueuedMessage, j: int) {
    x.Key() in learnt && learnt[x.Key()] <= j
  }

  /** The entry of `x` as it was when the delivery with index `j` was made. */
  ghost function StoodAs(id: nat, ledger: Ledger, learnt: Learnt, x: QueuedMessage, j: int): QueuedMessage
    requires x.Key() in ledger
  {
    if LearntBy(learnt, x, j) then x
    else x.(sequenceNumber := ledger[x.Key()].proposal, proposer := id)
  }

  /** The delivery `y` with index `j` did not pass over `x`, if `x` was there. */
  ghost predicate InTurn(id: nat, ledger: Ledger, learnt: Learnt, y: QueuedMessage, j: int, x: QueuedMessage) {
    TakenInBy(ledger, x, j) ==> !Cmp(y, StoodAs(id, ledger, learnt, x, j))
  }

  /** A delivery never comes out after an entry that was already there and stayed behind. */
  ghost predicate OrderOk(id: nat, ledger: Ledger, learnt: Learnt, delivered: seq<QueuedMessage>,
                          q: multiset<QueuedMessage>)
  {
    && (forall m :: m in ledger ==> ledger[m].deliveredBefore <= |delivered|)
    && (forall i :: 0 <= i < |delivered| ==>
          TakenInBy(ledger, delivered[i], i) && LearntBy(learnt, delivered[i], i))
    && (forall x, j :: x in q && 0 <= j < |delivered| ==> InTurn(id, ledger, learnt, delivered[j], j, x))
    && (forall i, j :: 0 <= j < i < |delivered| ==> InTurn(id, ledger, learnt, delivered[j], j, delivered[i]))
  }

  ghost predicate LearntOk(learnt: Learnt, seqs: set<SeqMessage>, n: nat) {
    && (forall m :: m in learnt <==> !Undecided(seqs, m))
    && (forall m :: m in learnt ==> learnt[m] <= n)
  }

  /** The clauses about entries and front. */
  ghost predicate QueueOk(id: nat, ledger: Ledger, seqs: set<SeqMessage>,
                          q: multiset<QueuedMessage>, d: seq<QueuedMessage>)
  {
    var all := q + multiset(d);
    && Unique(all) && EntriesOk(id, ledger, seqs, all) && NothingLost(ledger, all)
    && DeliveredOk(d) && Stopped(q)
  }

  ghost predicate Local(hosts: set<nat>, s: NodeState) {
    && s.id in hosts && |hosts| >= 2 && !s.exited
    && OwnOk(hosts, s.id, s.nextMsgId, s.ackHistory, s.dataHistory)
    && AckedOk(s.id, s.acked, s.accepted)
    && SelfOk(s.id, s.ackHistory, s.accepted)
    && ProposalsOk(s.id, s.clock, s.accepted)
    && SeqsOk(s.accepted, s.seqHistory)
    && DecisionsOk(hosts, s.id, s.ackHistory, s.seqHistory)
    && QueueOk(s.id, s.accepted, s.seqHistory, s.queue, s.delivered)
    && OrderOk(s.id, s.accepted, s.learnt, s.delivered, s.queue)
    && LearntOk(s.learnt, s.seqHistory, |s.delivered|)
  }

  lemma InitialLocal(hosts: set<nat>, id: nat)
    requires id in hosts && |hosts| >= 2
    ensures Local(hosts, InitialNode(id))
  {
  }

  // ---------- taking a message in ----------

  lemma AddKeepsUnique(q: multiset<QueuedMessage>, x: QueuedMessage)
    requires Unique(q) && !Holds(q, x.Key())
    ensures Unique(q + multiset{x})
  {
    assert x !in q;
  }

  lemma AddKeepsEntries(id: nat, ledger: Ledger, seqs: set<SeqMessage>, all: multiset<QueuedMessage>,
                        x: QueuedMessage, n: nat)
    requires EntriesOk(id, ledger, seqs, all) && SeqsOk(ledger, seqs) && x.Key() !in ledger
    requires x.status.Undeliverable? && x.proposer == id
    ensures EntriesOk(id, ledger[x.Key() := Acceptance(x.sequenceNumber, n, x.data)], seqs, all + multiset{x})
  {
    var ledger' := ledger[x.Key() := Acceptance(x.sequenceNumber, n, x.data)];
    forall y | y in all + multiset{x} ensures EntryOk(id, ledger', seqs, y) {
      if y in all { assert EntryOk(id, ledger, seqs, y); }
    }
  }

  lemma AddKeepsNothingLost(ledger: Ledger, all: multiset<QueuedMessage>, x: QueuedMessage, acceptance: Acceptance)
    requires NothingLost(ledger, all)
    ensures NothingLost(ledger[x.Key() := acceptance], all + multiset{x})
  {
    forall m | m in ledger[x.Key() := acceptance] ensures Holds(all + multiset{x}, m) {
      if m == x.Key() {
        assert x in all + multiset{x};
      } else {
        assert Holds(all, m);
        var y :| y in all && y.Key() == m;
        assert y in all + multiset{x};
      }
    }
  }

  lemma AddKeepsOrder(id: nat, ledger: Ledger, learnt: Learnt, d: seq<QueuedMessage>, q: multiset<QueuedMessage>,
                      x: QueuedMessage, c: nat, v: nat)
    requires OrderOk(id, ledger, learnt, d, q) && x.Key() !in ledger
    requires forall y :: y in q ==> y.Key() in ledger
    ensures OrderOk(id, ledger[x.Key() := Acceptance(c, |d|, v)], learnt, d, q + multiset{x})
  {
    hide Cmp;
    var ledger' := ledger[x.Key() := Acceptance(c, |d|, v)];
    forall i | 0 <= i < |d| ensures TakenInBy(ledger', d[i], i) {
      assert TakenInBy(ledger, d[i], i);
    }
    forall y, j | y in q + multiset{x} && 0 <= j < |d| ensures InTurn(id, ledger', learnt, d[j], j, y) {
      if y != x { assert y in q && InTurn(id, ledger, learnt, d[j], j, y); }
    }
    forall i, j | 0 <= j < i < |d| ensures InTurn(id, ledger', learnt, d[j], j, d[i]) {
      assert TakenInBy(ledger, d[i], i) && InTurn(id, ledger, learnt, d[j], j, d[i]);
    }
  }

  lemma AddKeepsStopped(q: multiset<QueuedMessage>, x: QueuedMessage)
    requires Stopped(q) && x.status.Undeliverable?
    ensures Stopped(q + multiset{x})
  {
    var q' := q + multiset{x};
    if q != multiset{} {
      var z :| z in q && z.status.Undeliverable? && forall y :: y in q ==> !Cmp(z, y);
      var front := if Cmp(z, x) then x else z;
      assert front in q' && forall y :: y in q' ==> !Cmp(front, y);
    } else {
      assert x in q' && forall y :: y in q' ==> !Cmp(x, y);
    }
  }

  lemma AddKeepsQueueOk(id: nat, ledger: Ledger, seqs: set<SeqMessage>,
                        q: multiset<QueuedMessage>, d: seq<QueuedMessage>, x: QueuedMessage)
    requires QueueOk(id, ledger, seqs, q, d) && SeqsOk(ledger, seqs)
    requires x.Key() !in ledger && x.status.Undeliverable? && x.proposer == id
    ensures QueueOk(id, ledger[x.Key() := Acceptance(x.sequenceNumber, |d|, x.data)], seqs, q + multiset{x}, d)
  {
    hide Unique, EntriesOk, NothingLost, DeliveredOk, Stopped, SeqsOk, Holds;
    var all := q + multiset(d);
    KeysAreKnown(id, ledger, seqs, all);
    AddKeepsUnique(all, x);
    AddKeepsEntries(id, ledger, seqs, all, x, |d|);
    AddKeepsNothingLost(ledger, all, x, Acceptance(x.sequenceNumber, |d|, x.data));
    AddKeepsStopped(q, x);
    Commute(q, multiset(d), multiset{x});
  }

  lemma Commute(a: multiset<QueuedMessage>, b: multiset<QueuedMessage>, c: multiset<QueuedMessage>)
    ensures a + b + c == a + c + b
  {
  }

  lemma KeysAreKnown(id: nat, ledger: Ledger, seqs: set<SeqMessage>, all: multiset<QueuedMessage>)
    requires EntriesOk(id, ledger, seqs, all)
    ensures forall x :: x in all ==> x.Key() in ledger
    ensures forall m :: Holds(all, m) ==> m in ledger
  {
    forall x | x in all ensures x.Key() in ledger {
      assert EntryOk(id, ledger, seqs, x);
    }
  }

  lemma QueuedAreKnown(id: nat, ledger: Ledger, seqs: set<SeqMessage>,
                       q: multiset<QueuedMessage>, d: seq<QueuedMessage>)
    requires QueueOk(id, ledger, seqs, q, d)
    ensures forall x :: x in q ==> x.Key() in ledger
  {
    hide Unique, EntriesOk, NothingLost, DeliveredOk, Stopped;
    KeysAreKnown(id, ledger, seqs, q + multiset(d));
  }

  lemma AddKeepsSeqs(ledger: Ledger, seqs: set<SeqMessage>, m: MsgKey, acceptance: Acceptance)
    requires SeqsOk(ledger, seqs)
    ensures SeqsOk(ledger[m := acceptance], seqs)
  {
  }

  lemma NewRowKeepsOwn(hosts: set<nat>, id: nat, k: nat, rows: Rows, data: map<nat, nat>,
                       c: nat, v: nat, seqs: set<SeqMessage>)
    requires id in hosts && |hosts| >= 2 && c >= 1
    requires OwnOk(hosts, id, k, rows, data) && DecisionsOk(hosts, id, rows, seqs)
    ensures var rows' := rows[k := map[id := c]];
            OwnOk(hosts, id, k + 1, rows', data[k := v]) && DecisionsOk(hosts, id, rows', seqs)
    ensures k !in rows && k !in data
  {
    var row := map[id := c];
    assert |row| == 1;
    assert k !in rows;
  }

  lemma NewRowKeepsLedger(id: nat, k: nat, rows: Rows, c: nat, ledger: Ledger, acked: set<AckMessage>, n: nat, v: nat)
    requires k !in rows
    requires SelfOk(id, rows, ledger) && AckedOk(id, acked, ledger)
    ensures MsgKey(id, k) !in ledger
    ensures var ledger' := ledger[MsgKey(id, k) := Acceptance(c, n, v)];
            SelfOk(id, rows[k := map[id := c]], ledger') && AckedOk(id, acked, ledger')
  {
  }

  lemma NewNumberKeepsProposals(id: nat, clock: nat, ledger: Ledger, m: MsgKey, c: nat, n: nat, v: nat)
    requires ProposalsOk(id, clock, ledger) && m !in ledger
    requires c == if m.sender == id then clock + 1 else clock
    ensures ProposalsOk(id, clock + 1, ledger[m := Acceptance(c, n, v)])
  {
  }

  lemma MulticastKeepsLocal(hosts: set<nat>, s: NodeState, data: nat, s': NodeState, sent: set<Packet>)
    requires Local(hosts, s) && DoMulticast(hosts, s, data, s', sent)
    ensures Local(hosts, s')
  {
    hide OwnOk, AckedOk, SelfOk, ProposalsOk, SeqsOk, DecisionsOk, QueueOk, OrderOk, LearntOk;
    var k, c, n := s.nextMsgId, s.clock + 1, |s.delivered|;
    var x := QueuedMessage(c, Undeliverable, s.id, k, data, s.id);
    NewRowKeepsOwn(hosts, s.id, k, s.ackHistory, s.dataHistory, c, data, s.seqHistory);
    NewRowKeepsLedger(s.id, k, s.ackHistory, c, s.accepted, s.acked, n, data);
    NewNumberKeepsProposals(s.id, s.clock, s.accepted, x.Key(), c, n, x.data);
    AddKeepsSeqs(s.accepted, s.seqHistory, x.Key(), Acceptance(c, n, x.data));
    AddKeepsQueueOk(s.id, s.accepted, s.seqHistory, s.queue, s.delivered, x);
    QueuedAreKnown(s.id, s.accepted, s.seqHistory, s.queue, s.delivered);
    AddKeepsOrder(s.id, s.accepted, s.learnt, s.delivered, s.queue, x, c, data);
  }

  lemma NewAckKeepsLedger(id: nat, rows: Rows, ledger: Ledger, acked: set<AckMessage>, d: DataMessage,
                          c: nat, n: nat, v: nat)
    requires d.sender != id && d.Key() !in ledger
    requires SelfOk(id, rows, ledger) && AckedOk(id, acked, ledger)
    ensures var ledger' := ledger[d.Key() := Acceptance(c, n, v)];
            SelfOk(id, rows, ledger') && AckedOk(id, acked + {AckMessage(d.sender, d.msgId, c, id)}, ledger')
  {
  }

  lemma UnackedIsNew(id: nat, acked: set<AckMessage>, ledger: Ledger, d: DataMessage)
    requires AckedOk(id, acked, ledger) && d.sender != id
    ensures (exists a :: a in acked && a.Key() == d.Key()) <==> d.Key() in ledger
  {
    if d.Key() in ledger {
      assert AckMessage(d.sender, d.msgId, ledger[d.Key()].proposal, id).Key() == d.Key();
    }
  }

  lemma DataKeepsLocal(hosts: set<nat>, s: NodeState, d: DataMessage, s': NodeState, sent: set<Packet>)
    requires Local(hosts, s) && HandleData(s, d, s', sent) && d.sender != s.id
    ensures Local(hosts, s')
  {
    hide OwnOk, AckedOk, SelfOk, ProposalsOk, SeqsOk, DecisionsOk, QueueOk, OrderOk, LearntOk;
    UnackedIsNew(s.id, s.acked, s.accepted, d);
    if d.Key() !in s.accepted {
      var c, n := s.clock, |s.delivered|;
      var x := QueuedMessage(c, Undeliverable, d.sender, d.msgId, d.data, s.id);
      NewAckKeepsLedger(s.id, s.ackHistory, s.accepted, s.acked, d, c, n, d.data);
      NewNumberKeepsProposals(s.id, s.clock, s.accepted, x.Key(), c, n, x.data);
      AddKeepsSeqs(s.accepted, s.seqHistory, x.Key(), Acceptance(c, n, x.data));
      AddKeepsQueueOk(s.id, s.accepted, s.seqHistory, s.queue, s.delivered, x);
      QueuedAreKnown(s.id, s.accepted, s.seqHistory, s.queue, s.delivered);
      AddKeepsOrder(s.id, s.accepted, s.learnt, s.delivered, s.queue, x, c, d.data);
    }
  }

  // ---------- finalising a message ----------

  lemma ReplaceKeepsUnique(all: multiset<QueuedMessage>, x: QueuedMessage, y: QueuedMessage)
    requires Unique(all) && x in all && x.Key() == y.Key()
    ensures Unique(all - multiset{x} + multiset{y})
  {
    var all' := all - multiset{x} + multiset{y};
    assert forall z :: z in all && z != x ==> z.Key() != y.Key();
    assert forall z :: z in all' <==> z == y || (z in all && z != x);
  }

  lemma ReplaceKeepsEntries(id: nat, ledger: Ledger, seqs: set<SeqMessage>, all: multiset<QueuedMessage>,
                            x: QueuedMessage, d: SeqMessage)
    requires EntriesOk(id, ledger, seqs, all) && Unique(all)
    requires x in all && x.Key() == d.Key() && d.finalSeq >= x.sequenceNumber
    ensures EntriesOk(id, ledger, seqs + {d},
                      all - multiset{x} + multiset{x.Finalised(d.finalSeq, d.finalSeqProposer)})
  {
    var y := x.Finalised(d.finalSeq, d.finalSeqProposer);
    assert EntryOk(id, ledger, seqs, x);
    forall z | z in all - multiset{x} + multiset{y} ensures EntryOk(id, ledger, seqs + {d}, z) {
      if z != y {
        assert z in all && z != x;
        assert EntryOk(id, ledger, seqs, z);
        assert z.Key() != d.Key();
      }
    }
  }

  lemma ReplaceKeepsNothingLost(ledger: Ledger, all: multiset<QueuedMessage>, x: QueuedMessage, y: QueuedMessage)
    requires NothingLost(ledger, all) && x in all && x.Key() == y.Key()
    ensures NothingLost(ledger, all - multiset{x} + multiset{y})
  {
    var all' := all - multiset{x} + multiset{y};
    forall m | m in ledger ensures Holds(all', m) {
      assert Holds(all, m);
      var z :| z in all && z.Key() == m;
      if z == x { assert y in all'; } else { assert z in all'; }
    }
  }

  /** Learning a final number now does not change how the entry stood so far. */
  lemma ReplaceKeepsOrder(id: nat, ledger: Ledger, learnt: Learnt, d: seq<QueuedMessage>, q: multiset<QueuedMessage>,
                          x: QueuedMessage, f: nat, fp: nat)
    requires OrderOk(id, ledger, learnt, d, q) && x in q && x.Key() in ledger
    requires x.Key() in learnt ==> x.Finalised(f, fp) == x
    ensures OrderOk(id, ledger, Noted(learnt, x.Key(), |d|), d, q - multiset{x} + multiset{x.Finalised(f, fp)})
  {
    var y, learnt' := x.Finalised(f, fp), Noted(learnt, x.Key(), |d|);
    var q' := q - multiset{x} + multiset{y};
    forall z, j | z in q' && 0 <= j < |d| ensures InTurn(id, ledger, learnt', d[j], j, z) {
      if z == y {
        assert InTurn(id, ledger, learnt, d[j], j, x);
      } else {
        assert InTurn(id, ledger, learnt, d[j], j, z);
      }
    }
    forall i, j | 0 <= j < i < |d| ensures InTurn(id, ledger, learnt', d[j], j, d[i]) {
      assert InTurn(id, ledger, learnt, d[j], j, d[i]);
    }
  }

  /** An entry is known by its final number or stands as it was taken in, and what is learnt is
      learnt by now. */
  ghost predicate StandsNow(id: nat, ledger: Ledger, learnt: Learnt, n: nat, x: QueuedMessage) {
    && x.Key() in ledger
    && (x.Key() in learnt ==> learnt[x.Key()] <= n)
    && (x.Key() !in learnt ==>
          x.status.Undeliverable? && x.sequenceNumber == ledger[x.Key()].proposal && x.proposer == id)
  }

  lemma NextInTurn(id: nat, ledger: Ledger, learnt: Learnt, n: nat, y: QueuedMessage, j: nat, x: QueuedMessage)
    requires StandsNow(id, ledger, learnt, n, x) && n <= j && !Cmp(y, x)
    ensures InTurn(id, ledger, learnt, y, j, x)
  {
  }

  lemma DrainKeepsTimes(id: nat, ledger: Ledger, learnt: Learnt, d: seq<QueuedMessage>, q: multiset<QueuedMessage>,
                        out: seq<QueuedMessage>, q': multiset<QueuedMessage>)
    requires OrderOk(id, ledger, learnt, d, q) && Drains(q, out, q')
    requires forall x :: x in q ==> StandsNow(id, ledger, learnt, |d|, x)
    ensures forall i :: 0 <= i < |d + out| ==>
              TakenInBy(ledger, (d + out)[i], i) && LearntBy(learnt, (d + out)[i], i)
  {
    hide Cmp, Stopped, InTurn;
    forall i | 0 <= i < |d + out|
      ensures TakenInBy(ledger, (d + out)[i], i) && LearntBy(learnt, (d + out)[i], i)
    {
      if i < |d| {
        assert (d + out)[i] == d[i];
      } else {
        var x := out[i - |d|];
        assert (d + out)[i] == x && x in multiset(out);
        assert x in q && StandsNow(id, ledger, learnt, |d|, x);
      }
    }
  }

  lemma DrainKeepsOrder(id: nat, ledger: Ledger, learnt: Learnt, d: seq<QueuedMessage>, q: multiset<QueuedMessage>,
                        out: seq<QueuedMessage>, q': multiset<QueuedMessage>)
    requires OrderOk(id, ledger, learnt, d, q) && Drains(q, out, q')
    requires forall x :: x in q ==> StandsNow(id, ledger, learnt, |d|, x)
    ensures OrderOk(id, ledger, learnt, d + out, q')
  {
    hide Cmp, Stopped, InTurn, StandsNow, TakenInBy, LearntBy;
    var d' := d + out;
    DrainKeepsTimes(id, ledger, learnt, d, q, out, q');
    forall x | x in q' || x in multiset(out) ensures x in q {}
    forall x, j | x in q' && 0 <= j < |d'| ensures InTurn(id, ledger, learnt, d'[j], j, x) {
      if j < |d| { assert d'[j] == d[j]; } else { NextInTurn(id, ledger, learnt, |d|, out[j - |d|], j, x); }
    }
    forall i, j | 0 <= j < i < |d'| ensures InTurn(id, ledger, learnt, d'[j], j, d'[i]) {
      if i >= |d| {
        assert d'[i] == out[i - |d|] && out[i - |d|] in multiset(out);
        if j < |d| { assert d'[j] == d[j]; } else { NextInTurn(id, ledger, learnt, |d|, out[j - |d|], j, d'[i]); }
      }
    }
  }

  lemma DrainedTotal(q1: multiset<QueuedMessage>, d: seq<QueuedMessage>, out: seq<QueuedMessage>,
                     q': multiset<QueuedMessage>)
    requires Drains(q1, out, q')
    ensures q' + multiset(d + out) == q1 + multiset(d)
  {
    assert multiset(d + out) == multiset(d) + multiset(out);
  }

  lemma ReplacedTotal(q: multiset<QueuedMessage>, d: multiset<QueuedMessage>, x: QueuedMessage, y: QueuedMessage)
    requires x in q
    ensures q - multiset{x} + multiset{y} + d == q + d - multiset{x} + multiset{y}
    ensures x in q + d
  {
  }

  lemma DrainKeepsDelivered(q: multiset<QueuedMessage>, d: seq<QueuedMessage>, out: seq<QueuedMessage>,
                            q': multiset<QueuedMessage>)
    requires DeliveredOk(d) && Drains(q, out, q')
    ensures DeliveredOk(d + out) && Stopped(q')
  {
  }

  lemma FinalisingKeepsQueueOk(s: NodeState, d: SeqMessage,
                               q': multiset<QueuedMessage>, delivered': seq<QueuedMessage>)
    requires QueueOk(s.id, s.accepted, s.seqHistory, s.queue, s.delivered)
    requires Holds(s.queue, d.Key())
    requires forall x :: x in s.queue && x.Key() == d.Key() ==> x.sequenceNumber <= d.finalSeq
    requires FinalisedAndDelivered(s.queue, s.delivered, d.Key(), d.finalSeq, d.finalSeqProposer, q', delivered')
    ensures QueueOk(s.id, s.accepted, s.seqHistory + {d}, q', delivered')
  {
    hide Unique, EntriesOk, NothingLost, DeliveredOk, Stopped, Drains;
    var all := s.queue + multiset(s.delivered);
    var q1, out :| Rekeyed(s.queue, d.Key(), d.finalSeq, d.finalSeqProposer, q1)
                   && Drains(q1, out, q') && delivered' == s.delivered + out;
    var x :| x in s.queue && x.Key() == d.Key()
             && q1 == s.queue - multiset{x} + multiset{x.Finalised(d.finalSeq, d.finalSeqProposer)};
    var y := x.Finalised(d.finalSeq, d.finalSeqProposer);
    var all' := q' + multiset(delivered');
    DrainedTotal(q1, s.delivered, out, q');
    ReplacedTotal(s.queue, multiset(s.delivered), x, y);
    assert all' == all - multiset{x} + multiset{y};
    ReplaceKeepsUnique(all, x, y);
    ReplaceKeepsEntries(s.id, s.accepted, s.seqHistory, all, x, d);
    ReplaceKeepsNothingLost(s.accepted, all, x, y);
    DrainKeepsDelivered(q1, s.delivered, out, q');
  }

  /** Before a final number is handled, every entry stands as it was taken in or as it was finalised. */
  lemma EntriesStand(id: nat, ledger: Ledger, learnt: Learnt, seqs: set<SeqMessage>,
                     q: multiset<QueuedMessage>, d: seq<QueuedMessage>, x: QueuedMessage)
    requires QueueOk(id, ledger, seqs, q, d) && LearntOk(learnt, seqs, |d|) && x in q
    ensures StandsNow(id, ledger, learnt, |d|, x)
    ensures x.Key() in learnt ==> SeqMessage(x.sender, x.msgId, x.sequenceNumber, x.proposer) in seqs
                                  && x.status.Deliverable?
  {
    hide Unique, NothingLost, DeliveredOk, Stopped;
    assert x in q + multiset(d);
    assert EntryOk(id, ledger, seqs, x);
    if x.status.Deliverable? {
      assert SeqMessage(x.sender, x.msgId, x.sequenceNumber, x.proposer).Key() == x.Key();
    }
  }

  lemma FinalisingKeepsOrder(s: NodeState, d: SeqMessage,
                             q': multiset<QueuedMessage>, delivered': seq<QueuedMessage>)
    requires QueueOk(s.id, s.accepted, s.seqHistory, s.queue, s.delivered)
    requires OrderOk(s.id, s.accepted, s.learnt, s.delivered, s.queue)
    requires LearntOk(s.learnt, s.seqHistory, |s.delivered|)
    requires Holds(s.queue, d.Key())
    requires forall d' :: d' in s.seqHistory && d'.Key() == d.Key() ==> d' == d
    requires FinalisedAndDelivered(s.queue, s.delivered, d.Key(), d.finalSeq, d.finalSeqProposer, q', delivered')
    ensures OrderOk(s.id, s.accepted, Noted(s.learnt, d.Key(), |s.delivered|), delivered', q')
    ensures LearntOk(Noted(s.learnt, d.Key(), |s.delivered|), s.seqHistory + {d}, |delivered'|)
  {
    hide QueueOk, OrderOk, Drains, StandsNow, LearntOk;
    var learnt', n := Noted(s.learnt, d.Key(), |s.delivered|), |s.delivered|;
    var q1, out :| Rekeyed(s.queue, d.Key(), d.finalSeq, d.finalSeqProposer, q1)
                   && Drains(q1, out, q') && delivered' == s.delivered + out;
    var x :| x in s.queue && x.Key() == d.Key()
             && q1 == s.queue - multiset{x} + multiset{x.Finalised(d.finalSeq, d.finalSeqProposer)};
    forall z | z in s.queue
      ensures StandsNow(s.id, s.accepted, s.learnt, n, z)
      ensures z.Key() in s.learnt ==> SeqMessage(z.sender, z.msgId, z.sequenceNumber, z.proposer) in s.seqHistory
                                      && z.status.Deliverable?
    {
      EntriesStand(s.id, s.accepted, s.learnt, s.seqHistory, s.queue, s.delivered, z);
    }
    QueuedAreKnown(s.id, s.accepted, s.seqHistory, s.queue, s.delivered);
    ReplaceKeepsOrder(s.id, s.accepted, s.learnt, s.delivered, s.queue, x, d.finalSeq, d.finalSeqProposer);
    forall z | z in q1 ensures StandsNow(s.id, s.accepted, learnt', n, z) {
      StandsAfter(s.id, s.accepted, s.learnt, n, s.queue, x, d, z);
    }
    DrainKeepsOrder(s.id, s.accepted, learnt', s.delivered, q1, out, q');
    NotedKeepsLearnt(s.learnt, s.seqHistory, n, d, |delivered'|);
  }

  lemma StandsAfter(id: nat, ledger: Ledger, learnt: Learnt, n: nat, q: multiset<QueuedMessage>,
                    x: QueuedMessage, d: SeqMessage, z: QueuedMessage)
    requires forall y :: y in q ==> StandsNow(id, ledger, learnt, n, y)
    requires x in q && x.Key() == d.Key()
    requires z in q - multiset{x} + multiset{x.Finalised(d.finalSeq, d.finalSeqProposer)}
    ensures StandsNow(id, ledger, Noted(learnt, d.Key(), n), n, z)
  {
    var y := x.Finalised(d.finalSeq, d.finalSeqProposer);
    if z != y { assert z in q; }
    assert StandsNow(id, ledger, learnt, n, x);
  }

  lemma NotedKeepsLearnt(learnt: Learnt, seqs: set<SeqMessage>, n: nat, d: SeqMessage, n': nat)
    requires LearntOk(learnt, seqs, n) && n <= n'
    ensures LearntOk(Noted(learnt, d.Key(), n), seqs + {d}, n')
  {
    forall m ensures Undecided(seqs + {d}, m) <==> Undecided(seqs, m) && m != d.Key() {
      if m == d.Key() { assert d in seqs + {d}; }
      if Undecided(seqs + {d}, m) { assert forall e :: e in seqs ==> e in seqs + {d}; }
    }
  }

  // ---------- acks ----------

  lemma MoreAcksKeepOwn(hosts: set<nat>, id: nat, n: nat, rows: Rows, data: map<nat, nat>, k: nat, h: nat, v: nat)
    requires OwnOk(hosts, id, n, rows, data) && k in rows && h in hosts && v >= 1
    ensures OwnOk(hosts, id, n, rows[k := WithAck(rows[k], h, v)], data)
  {
  }

  lemma MoreAcksKeepSelf(id: nat, rows: Rows, ledger: Ledger, k: nat, h: nat, v: nat)
    requires SelfOk(id, rows, ledger) && k in rows && h != id
    ensures SelfOk(id, rows[k := WithAck(rows[k], h, v)], ledger)
  {
  }

  lemma SmallerRow(hosts: set<nat>, row: map<nat, nat>, h: nat, v: nat)
    requires row.Keys <= hosts && h in hosts && h !in row
    ensures |row| < |hosts| && |WithAck(row, h, v)| == |row| + 1
    ensures |WithAck(row, h, v)| == |hosts| ==> WithAck(row, h, v).Keys == hosts
  {
    var row' := WithAck(row, h, v);
    assert row'.Keys == row.Keys + {h} && row'.Keys <= hosts;
    SubsetSize(row'.Keys, hosts);
    assert |row.Keys| == |row| && |row'.Keys| == |row'|;
  }

  lemma SubsetSize<T>(a: set<T>, b: set<T>)
    requires a <= b
    ensures |a| <= |b| && (|a| == |b| ==> a == b)
  {
    assert b == a + (b - a);
    assert |b| == |a| + |b - a|;
  }

  lemma IncompleteIsUndecided(hosts: set<nat>, id: nat, rows: Rows, seqs: set<SeqMessage>, k: nat)
    requires DecisionsOk(hosts, id, rows, seqs) && !Complete(hosts, rows, k)
    ensures Undecided(seqs, MsgKey(id, k))
  {
    hide MaxProposal;
    forall d | d in seqs ensures d.Key() != MsgKey(id, k) {
      assert d.sender == id ==> Complete(hosts, rows, d.msgId);
    }
  }

  lemma OtherRowsComplete(hosts: set<nat>, rows: Rows, k: nat, row': map<nat, nat>)
    ensures forall j :: j != k ==> (Complete(hosts, rows[k := row'], j) <==> Complete(hosts, rows, j))
    ensures Complete(hosts, rows[k := row'], k) <==> |row'| == |hosts|
  {
  }

  /** Collecting one more ack decides the message, if it completes the row, and nothing else. */
  lemma MoreAcksKeepDecisions(hosts: set<nat>, id: nat, rows: Rows, seqs: set<SeqMessage>, k: nat, h: nat, v: nat)
    requires DecisionsOk(hosts, id, rows, seqs)
    requires k in rows && rows[k].Keys <= hosts && h in hosts && h !in rows[k]
    ensures Undecided(seqs, MsgKey(id, k))
    ensures var row' := WithAck(rows[k], h, v);
            var best := MaxProposal(row');
            var rows' := rows[k := row'];
            DecisionsOk(hosts, id, rows',
                        if |row'| == |hosts| then seqs + {SeqMessage(id, k, best.0, best.1)} else seqs)
  {
    SmallerRow(hosts, rows[k], h, v);
    IncompleteIsUndecided(hosts, id, rows, seqs, k);
    var row' := WithAck(rows[k], h, v);
    OtherRowsComplete(hosts, rows, k, row');
    hide MaxProposal, Complete, WithAck, Undecided;
    RowDecided(hosts, id, rows, seqs, k, row');
  }

  lemma RowDecided(hosts: set<nat>, id: nat, rows: Rows, seqs: set<SeqMessage>, k: nat, row': map<nat, nat>)
    requires DecisionsOk(hosts, id, rows, seqs) && Undecided(seqs, MsgKey(id, k))
    ensures DecisionsOk(hosts, id, rows[k := row'],
                        if |row'| == |hosts| then seqs + {SeqMessage(id, k, MaxProposal(row').0, MaxProposal(row').1)}
                        else seqs)
  {
    OtherRowsComplete(hosts, rows, k, row');
    hide MaxProposal, Complete;
    forall d | d in seqs && d.sender == id ensures d.msgId != k {
      assert d.Key() != MsgKey(id, k);
    }
  }

  lemma TickKeepsProposals(id: nat, clock: nat, ledger: Ledger)
    requires ProposalsOk(id, clock, ledger)
    ensures ProposalsOk(id, clock + 1, ledger)
  {
  }

  lemma NewDecisionKeepsSeqs(ledger: Ledger, seqs: set<SeqMessage>, d: SeqMessage)
    requires SeqsOk(ledger, seqs) && d.Key() in ledger
    requires forall d' :: d' in seqs && d'.Key() == d.Key() ==> d' == d
    ensures SeqsOk(ledger, seqs + {d})
  {
  }

  /** A message taken in and not decided is still in the queue, under the number proposed for it. */
  lemma UndecidedIsQueued(id: nat, ledger: Ledger, seqs: set<SeqMessage>,
                          q: multiset<QueuedMessage>, d: seq<QueuedMessage>, m: MsgKey)
    requires QueueOk(id, ledger, seqs, q, d) && m in ledger && Undecided(seqs, m)
    ensures Holds(q, m)
    ensures forall x :: x in q && x.Key() == m ==> x.sequenceNumber == ledger[m].proposal
  {
    var all := q + multiset(d);
    assert Holds(all, m);
    var x :| x in all && x.Key() == m;
    assert EntryOk(id, ledger, seqs, x);
    assert x.status.Undeliverable?;
    assert x in q;
    forall y | y in q && y.Key() == m ensures y.sequenceNumber == ledger[m].proposal {
      assert y in all;
    }
  }

  lemma SelfProposalIsBelow(hosts: set<nat>, id: nat, n: nat, rows: Rows, data: map<nat, nat>, ledger: Ledger, k: nat)
    requires OwnOk(hosts, id, n, rows, data) && SelfOk(id, rows, ledger) && k in rows
    ensures MsgKey(id, k) in ledger && ledger[MsgKey(id, k)].proposal <= MaxProposal(rows[k]).0
  {
    assert MsgKey(id, k).msgId == k;
    MaxProposalIsMax(rows[k]);
  }

  /** What an ack must look like for the handler to cope with it. */
  ghost predicate FittingAck(hosts: set<nat>, s: NodeState, a: AckMessage) {
    && a.sender == s.id && a.proposer in hosts && a.proposer != s.id
    && a.msgId in s.ackHistory && a.proposedSeq >= 1
  }

  lemma AckKeepsLocal(hosts: set<nat>, s: NodeState, a: AckMessage, s': NodeState, sent: set<Packet>)
    requires Local(hosts, s) && HandleAck(hosts, s, a, s', sent) && FittingAck(hosts, s, a)
    ensures Local(hosts, s')
  {
    var k, h, v := a.msgId, a.proposer, a.proposedSeq;
    var row := s.ackHistory[k];
    assert row.Keys <= hosts;
    if h !in row {
      NewAckKeepsLocal(hosts, s, a, s', sent);
    } else if |row| == |hosts| {
      assert Complete(hosts, s.ackHistory, k);
      assert SeqMessage(s.id, k, MaxProposal(row).0, MaxProposal(row).1).Key() == a.Key();
    }
  }

  lemma NewAckKeepsLocal(hosts: set<nat>, s: NodeState, a: AckMessage, s': NodeState, sent: set<Packet>)
    requires Local(hosts, s) && HandleAck(hosts, s, a, s', sent) && FittingAck(hosts, s, a)
    requires a.proposer !in s.ackHistory[a.msgId] && s.ackHistory[a.msgId].Keys <= hosts
    ensures Local(hosts, s')
  {
    hide OwnOk, AckedOk, SelfOk, ProposalsOk, SeqsOk, DecisionsOk, QueueOk, OrderOk, LearntOk, FinalisedAndDelivered;
    var k, h, v := a.msgId, a.proposer, a.proposedSeq;
    var row' := WithAck(s.ackHistory[k], h, v);
    var rows' := s.ackHistory[k := row'];
    MoreAcksKeepOwn(hosts, s.id, s.nextMsgId, s.ackHistory, s.dataHistory, k, h, v);
    MoreAcksKeepSelf(s.id, s.ackHistory, s.accepted, k, h, v);
    MoreAcksKeepDecisions(hosts, s.id, s.ackHistory, s.seqHistory, k, h, v);
    TickKeepsProposals(s.id, s.clock, s.accepted);
    if |row'| == |hosts| {
      var d := SeqMessage(a.sender, k, MaxProposal(row').0, MaxProposal(row').1);
      SelfProposalIsBelow(hosts, s.id, s.nextMsgId, rows', s.dataHistory, s.accepted, k);
      UndecidedIsQueued(s.id, s.accepted, s.seqHistory, s.queue, s.delivered, d.Key());
      NewDecisionKeepsSeqs(s.accepted, s.seqHistory, d);
      FinalisingKeepsQueueOk(s, d, s'.queue, s'.delivered);
      FinalisingKeepsOrder(s, d, s'.queue, s'.delivered);
    }
  }

  // ---------- final sequence numbers ----------

  /** What a Seq must look like: this process has acked its message, and proposed no more. */
  ghost predicate FittingSeq(s: NodeState, d: SeqMessage) {
    && d.sender != s.id && d.Key() in s.accepted
    && s.accepted[d.Key()].proposal <= d.finalSeq
    && forall d' :: d' in s.seqHistory && d'.Key() == d.Key() ==> d' == d
  }

  /** A message taken in is in the queue or in the delivered list. */
  lemma AcceptedIsHeld(id: nat, ledger: Ledger, seqs: set<SeqMessage>,
                       q: multiset<QueuedMessage>, d: seq<QueuedMessage>, m: MsgKey)
    requires QueueOk(id, ledger, seqs, q, d) && m in ledger
    ensures Holds(q, m) || exists i :: 0 <= i < |d| && d[i].Key() == m
  {
    var all := q + multiset(d);
    assert Holds(all, m);
    var x :| x in all && x.Key() == m;
    if x !in q { assert x in multiset(d); }
  }

  /** Its number in the queue never exceeds its final one. */
  lemma QueuedIsBelowFinal(id: nat, ledger: Ledger, seqs: set<SeqMessage>,
                           q: multiset<QueuedMessage>, d: seq<QueuedMessage>, m: SeqMessage)
    requires QueueOk(id, ledger, seqs, q, d) && m.Key() in ledger && ledger[m.Key()].proposal <= m.finalSeq
    requires forall m' :: m' in seqs && m'.Key() == m.Key() ==> m' == m
    ensures forall x :: x in q && x.Key() == m.Key() ==> x.sequenceNumber <= m.finalSeq
  {
    forall x | x in q && x.Key() == m.Key() ensures x.sequenceNumber <= m.finalSeq {
      assert x in q + multiset(d);
      assert EntryOk(id, ledger, seqs, x);
      if x.status.Deliverable? {
        assert SeqMessage(x.sender, x.msgId, x.sequenceNumber, x.proposer).Key() == m.Key();
      }
    }
  }

  lemma OthersDecisionKeepsDecisions(hosts: set<nat>, id: nat, rows: Rows, seqs: set<SeqMessage>, d: SeqMessage)
    requires DecisionsOk(hosts, id, rows, seqs) && d.sender != id
    ensures DecisionsOk(hosts, id, rows, seqs + {d})
  {
  }

  lemma SeqKeepsLocal(hosts: set<nat>, s: NodeState, d: SeqMessage, s': NodeState, sent: set<Packet>)
    requires Local(hosts, s) && HandleSeq(s, d, s', sent) && FittingSeq(s, d)
    ensures Local(hosts, s')
  {
    hide OwnOk, AckedOk, SelfOk, ProposalsOk, SeqsOk, DecisionsOk, QueueOk, OrderOk, LearntOk, FinalisedAndDelivered;
    AcceptedIsHeld(s.id, s.accepted, s.seqHistory, s.queue, s.delivered, d.Key());
    if Holds(s.queue, d.Key()) {
      QueuedIsBelowFinal(s.id, s.accepted, s.seqHistory, s.queue, s.delivered, d);
      NewDecisionKeepsSeqs(s.accepted, s.seqHistory, d);
      OthersDecisionKeepsDecisions(hosts, s.id, s.ackHistory, s.seqHistory, d);
      FinalisingKeepsQueueOk(s, d, s'.queue, s'.delivered);
      FinalisingKeepsOrder(s, d, s'.queue, s'.delivered);
    }
  }
}
