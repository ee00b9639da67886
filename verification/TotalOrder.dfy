/** In which order messages are delivered, and exactly when that order is the same everywhere. */
module TotalOrder {
  import opened Messages
  import opened NodeSpec
  import opened NodeInvariant
  import opened Machine
  import opened Invariant
  import opened Agreement

  /** The facts about one process that the order of its deliveries rests on. */
  ghost predicate Ordered(s: NodeState) {
    && QueueOk(s.id, s.accepted, s.seqHistory, s.queue, s.delivered)
    && OrderOk(s.id, s.accepted, s.learnt, s.delivered, s.queue)
    && LearntOk(s.learnt, s.seqHistory, |s.delivered|)
  }

  lemma InvOrdered(w: World, p: nat)
    requires Inv(w) && p in w.nodes
    ensures Ordered(w.nodes[p]) && w.nodes[p].id == p
  {
    assert Local(w.hosts, w.nodes[p]);
  }

  /** No message is delivered twice, and what is delivered is not queued. */
  lemma DeliveredOnce(s: NodeState)
    requires Ordered(s)
    ensures forall i, j :: 0 <= i < j < |s.delivered| ==> s.delivered[i].Key() != s.delivered[j].Key()
    ensures forall i :: 0 <= i < |s.delivered| ==> !Holds(s.queue, s.delivered[i].Key())
    ensures forall i :: 0 <= i < |s.delivered| ==> s.delivered[i] in All(s) && s.delivered[i].Key() in s.accepted
  {
    hide OrderOk, LearntOk, NothingLost, Stopped, DeliveredOk;
    var d, all := s.delivered, All(s);
    assert all == s.queue + multiset(d);
    forall i, j | 0 <= i < j < |d| ensures d[i].Key() != d[j].Key() {
      if d[i].Key() == d[j].Key() {
        assert d[i] in all && d[j] in all && all[d[i]] == 1;
        Twice(d, i, j);
        assert false;
      }
    }
    forall i | 0 <= i < |d| ensures d[i] in all && d[i].Key() in s.accepted && !Holds(s.queue, d[i].Key()) {
      assert d[i] in multiset(d);
      assert EntryOk(s.id, s.accepted, s.seqHistory, d[i]);
      forall x | x in s.queue ensures x.Key() != d[i].Key() {
        assert x in all;
        assert all[x] == s.queue[x] + multiset(d)[x];
      }
    }
  }

  lemma Twice(d: seq<QueuedMessage>, i: nat, j: nat)
    requires i < j < |d| && d[i] == d[j]
    ensures multiset(d)[d[i]] >= 2
  {
    assert d == d[..j] + d[j..];
    assert multiset(d) == multiset(d[..j]) + multiset(d[j..]);
    assert d[i] == d[..j][i] && d[j] == d[j..][0];
  }

  // ---------- messages held together ----------

  ghost predicate HeldTogether(w: World, p: nat, m: MsgKey, m': MsgKey) {
    p in w.nodes && Holds(w.nodes[p].queue, m) && Holds(w.nodes[p].queue, m')
  }

  /** `m` is the delivery with index `i` at `p`. */
  ghost predicate DeliveredAt(w: World, p: nat, i: nat, m: MsgKey) {
    p in w.nodes && i < |w.nodes[p].delivered| && w.nodes[p].delivered[i].Key() == m
  }

  /** The final number under which `p` delivered its `i`-th message. */
  ghost function NumberAt(w: World, p: nat, i: nat): nat {
    if p in w.nodes && i < |w.nodes[p].delivered| then w.nodes[p].delivered[i].sequenceNumber else 0
  }

  /** Two messages that were in the queue of `p` together leave it in the order of their final
      numbers, whatever the clocks did. */
  lemma HeldTogetherDeliveredInOrder(run: seq<World>, t: nat, u: nat, p: nat, m: MsgKey, m': MsgKey, i: nat, j: nat)
    requires IsRun(run) && t <= u < |run|
    requires HeldTogether(run[t], p, m, m')
    requires DeliveredAt(run[u], p, i, m) && DeliveredAt(run[u], p, j, m') && i < j
    ensures NumberAt(run[u], p, i) <= NumberAt(run[u], p, j)
  {
    hide IsRun, Inv, Ordered, Grows, Holds;
    RunInv(run, t);
    RunInv(run, u);
    RunIsLater(run, t, u);
    InvOrdered(run[t], p);
    InvOrdered(run[u], p);
    QueuedBeforeDelivered(run[t].nodes[p], run[u].nodes[p], m, m', i, j);
  }

  lemma QueuedBeforeDelivered(s: NodeState, s': NodeState, m: MsgKey, m': MsgKey, i: nat, j: nat)
    requires Ordered(s) && Ordered(s') && Grows(s, s') && s.delivered <= s'.delivered
    requires Holds(s.queue, m) && Holds(s.queue, m')
    requires i < j < |s'.delivered| && s'.delivered[i].Key() == m && s'.delivered[j].Key() == m'
    ensures s'.delivered[i].sequenceNumber <= s'.delivered[j].sequenceNumber
  {
    hide Ordered, Holds;
    DeliveredOnce(s);
    assert forall k :: 0 <= k < |s.delivered| ==> s'.delivered[k] == s.delivered[k];
    QueuedIsAccepted(s, m');
    InOrder(s', i, j);
  }

  lemma QueuedIsAccepted(s: NodeState, m: MsgKey)
    requires Ordered(s) && Holds(s.queue, m)
    ensures m in s.accepted && s.accepted[m].deliveredBefore <= |s.delivered|
  {
    hide QueueOk, LearntOk, InTurn;
    QueuedAreKnown(s.id, s.accepted, s.seqHistory, s.queue, s.delivered);
  }

  /** No entry ever stood under a number larger than its present one. */
  lemma StoodBelow(s: NodeState, x: QueuedMessage, j: int)
    requires QueueOk(s.id, s.accepted, s.seqHistory, s.queue, s.delivered) && x in All(s)
    ensures x.Key() in s.accepted
    ensures StoodAs(s.id, s.accepted, s.learnt, x, j).sequenceNumber <= x.sequenceNumber
  {
    hide Unique, NothingLost, DeliveredOk, Stopped;
    assert EntryOk(s.id, s.accepted, s.seqHistory, x);
  }

  /** The `j`-th delivery, if taken in before the `i`-th was made, has no smaller number. */
  lemma InOrder(s: NodeState, i: nat, j: nat)
    requires Ordered(s) && i < j < |s.delivered|
    requires s.delivered[j].Key() in s.accepted && s.accepted[s.delivered[j].Key()].deliveredBefore <= i
    ensures s.delivered[i].sequenceNumber <= s.delivered[j].sequenceNumber
  {
    hide QueueOk, LearntOk;
    assert s.delivered[j] in multiset(s.delivered);
    StoodBelow(s, s.delivered[j], i);
    assert InTurn(s.id, s.accepted, s.learnt, s.delivered[i], i, s.delivered[j]);
  }

  /** Two processes that each held both messages at some time agree on their order,
      provided their final numbers differ. */
  lemma HeldTogetherAgree(run: seq<World>, t: nat, t': nat, u: nat, p: nat, q: nat, m: MsgKey, m': MsgKey,
                          i: nat, j: nat, i': nat, j': nat)
    requires IsRun(run) && t <= u < |run| && t' <= u
    requires HeldTogether(run[t], p, m, m') && HeldTogether(run[t'], q, m, m')
    requires DeliveredAt(run[u], p, i, m) && DeliveredAt(run[u], p, j, m')
    requires DeliveredAt(run[u], q, i', m) && DeliveredAt(run[u], q, j', m')
    requires NumberAt(run[u], p, i) != NumberAt(run[u], p, j)
    ensures i < j <==> i' < j'
  {
    HeldTogetherSym(run[t], p, m, m');
    HeldTogetherSym(run[t'], q, m, m');
    hide IsRun, HeldTogether;
    if i < j {
      FollowsOrder(run, t, t', u, p, q, m, m', i, j, i', j');
    } else {
      FollowsOrder(run, t, t', u, p, q, m', m, j, i, j', i');
    }
  }

  lemma FollowsOrder(run: seq<World>, t: nat, t': nat, u: nat, p: nat, q: nat, m: MsgKey, m': MsgKey,
                     i: nat, j: nat, i': nat, j': nat)
    requires IsRun(run) && t <= u < |run| && t' <= u
    requires HeldTogether(run[t], p, m, m') && HeldTogether(run[t'], q, m', m)
    requires DeliveredAt(run[u], p, i, m) && DeliveredAt(run[u], p, j, m')
    requires DeliveredAt(run[u], q, i', m) && DeliveredAt(run[u], q, j', m')
    requires NumberAt(run[u], p, i) != NumberAt(run[u], p, j)
    requires i < j
    ensures i' < j'
  {
    hide IsRun, HeldTogether, Inv, DeliveredAt, NumberAt, Holds;
    RunInv(run, u);
    SameNumber(run[u], p, q, i, i', m);
    SameNumber(run[u], p, q, j, j', m');
    HeldTogetherDeliveredInOrder(run, t, u, p, m, m', i, j);
    if j' < i' { HeldTogetherDeliveredInOrder(run, t', u, q, m', m, j', i'); }
  }

  lemma SameNumber(w: World, p: nat, q: nat, i: nat, j: nat, m: MsgKey)
    requires Inv(w) && DeliveredAt(w, p, i, m) && DeliveredAt(w, q, j, m)
    ensures NumberAt(w, p, i) == NumberAt(w, q, j)
  {
    hide Inv;
    SameEntry(w, p, q, i, j);
  }

  lemma HeldTogetherSym(w: World, p: nat, m: MsgKey, m': MsgKey)
    requires HeldTogether(w, p, m, m')
    ensures HeldTogether(w, p, m', m)
  {
  }

  /** A delivered message is delivered as the same entry everywhere. */
  lemma SameEntry(w: World, p: nat, q: nat, i: nat, j: nat)
    requires Inv(w) && p in w.nodes && q in w.nodes
    requires i < |w.nodes[p].delivered| && j < |w.nodes[q].delivered|
    requires w.nodes[p].delivered[i].Key() == w.nodes[q].delivered[j].Key()
    ensures w.nodes[p].delivered[i] == w.nodes[q].delivered[j]
    ensures Decided(w, Decision(w.nodes[p].delivered[i]))
  {
    hide Inv;
    DeliveredEntry(w, p, i);
    DeliveredEntry(w, q, j);
    DecidedOnce(w, Decision(w.nodes[p].delivered[i]), Decision(w.nodes[q].delivered[j]));
  }

  lemma DeliveredEntry(w: World, p: nat, i: nat)
    requires Inv(w) && p in w.nodes && i < |w.nodes[p].delivered|
    ensures var x := w.nodes[p].delivered[i];
            && x.status.Deliverable? && Decided(w, Decision(x))
            && x.sender in w.nodes && x.msgId in w.nodes[x.sender].dataHistory
            && w.nodes[x.sender].dataHistory[x.msgId] == x.data
  {
    var s := w.nodes[p];
    var x := s.delivered[i];
    InvOrdered(w, p);
    DeliveredOnce(s);
    assert x.status.Deliverable? && s.accepted[x.Key()].data == x.data by {
      hide Inv, OrderOk, Unique, NothingLost, Stopped;
      assert EntryOk(s.id, s.accepted, s.seqHistory, x);
    }
    assert LedgerTrue(w.nodes, s.accepted) by { hide Local, NetOk; assert CrossOk(w.nodes, p); }
    hide Inv, Ordered;
    EntryIsDecided(w, p, x);
  }

  // ---------- what gets ahead of what ----------

  /** `d` is ordered before `d'`: by number, then by proposer. */
  predicate Smaller(d: SeqMessage, d': SeqMessage) {
    d.finalSeq < d'.finalSeq || (d.finalSeq == d'.finalSeq && d.finalSeqProposer < d'.finalSeqProposer)
  }

  /** The message of `d'` is the delivery with index `j`. */
  ghost predicate IsDelivery(s: NodeState, d': SeqMessage, j: nat) {
    j < |s.delivered| && s.delivered[j].Key() == d'.Key()
  }

  /** The message of `d'` had been delivered when that of `d`, the smaller one, was taken in. */
  ghost predicate Late(s: NodeState, d': SeqMessage, d: SeqMessage) {
    && Smaller(d, d') && d.Key() in s.accepted
    && exists j: nat :: IsDelivery(s, d', j) && j < s.accepted[d.Key()].deliveredBefore
  }

  /** The message of `d'` was delivered while that of `d`, the smaller one, stood under this process's
      own proposal, which is the final number of both, but is credited to a smaller process in `d`. */
  ghost predicate Overtaken(s: NodeState, d': SeqMessage, d: SeqMessage) {
    && d.Key() in s.accepted && s.accepted[d.Key()].proposal == d.finalSeq == d'.finalSeq
    && d.finalSeqProposer < d'.finalSeqProposer <= s.id
    && exists j: nat :: IsDelivery(s, d', j) && (d.Key() in s.learnt ==> j < s.learnt[d.Key()])
  }

  /** The message of `d'` got ahead of the smaller one of `d`. */
  ghost predicate Ahead(s: NodeState, d': SeqMessage, d: SeqMessage) {
    Late(s, d', d) || Overtaken(s, d', d)
  }

  lemma SmallerIsCmp(x: QueuedMessage, y: QueuedMessage)
    ensures Smaller(Decision(x), Decision(y)) <==> Cmp(y, x)
  {
  }

  /** Where the message of `d` is held, and that its entry, once final, is the one `d` stands for. */
  lemma EntryFor(w: World, p: nat, d: SeqMessage) returns (x: QueuedMessage)
    requires Inv(w) && Decided(w, d) && p in w.nodes
    ensures x.Key() == d.Key() && x in All(w.nodes[p]) && x.Key() in w.nodes[p].accepted
    ensures x in w.nodes[p].queue || exists l: nat :: l < |w.nodes[p].delivered| && w.nodes[p].delivered[l] == x
    ensures x.Key() in w.nodes[p].learnt ==> Decision(x) == d
  {
    var s := w.nodes[p];
    InvOrdered(w, p);
    DecidedIsMax(w, d);
    hide Inv, Decided;
    assert d.Key() in s.accepted;
    x := HeldEntry(s, d.Key());
    if x.Key() in s.learnt {
      LearntIsFinal(s, x);
      EntryIsDecided(w, p, x);
      DecidedOnce(w, d, Decision(x));
    }
  }

  lemma HeldEntry(s: NodeState, m: MsgKey) returns (x: QueuedMessage)
    requires Ordered(s) && m in s.accepted
    ensures x.Key() == m && x in All(s)
    ensures x in s.queue || exists l: nat :: l < |s.delivered| && s.delivered[l] == x
  {
    hide OrderOk, LearntOk, Unique, EntriesOk, DeliveredOk, Stopped;
    assert Holds(All(s), m);
    x :| x in All(s) && x.Key() == m;
    if x !in s.queue {
      assert x in multiset(s.delivered) && x in s.delivered;
      var l :| 0 <= l < |s.delivered| && s.delivered[l] == x;
    }
  }

  lemma LearntIsFinal(s: NodeState, x: QueuedMessage)
    requires Ordered(s) && x in All(s) && x.Key() in s.learnt
    ensures x.status.Deliverable?
  {
    hide OrderOk, Unique, NothingLost, DeliveredOk, Stopped;
    assert EntryOk(s.id, s.accepted, s.seqHistory, x);
  }

  /** A delivery that was made while a smaller message was not delivered got ahead of it. */
  lemma PassedIsAhead(w: World, p: nat, i: nat, d: SeqMessage)
    requires Inv(w) && p in w.nodes && Decided(w, d) && i < |w.nodes[p].delivered|
    requires Smaller(d, Decision(w.nodes[p].delivered[i]))
    requires forall k :: 0 <= k <= i ==> w.nodes[p].delivered[k].Key() != d.Key()
    ensures Ahead(w.nodes[p], Decision(w.nodes[p].delivered[i]), d)
  {
    hide Inv, Decided, Ordered, IsMaxOfProposals;
    var s := w.nodes[p];
    InvOrdered(w, p);
    DecidedIsMax(w, d);
    OwnProposalBelow(w, p, d);
    var x := EntryFor(w, p, d);
    assert IsDelivery(s, Decision(s.delivered[i]), i);
    if s.accepted[d.Key()].deliveredBefore <= i {
      EntryInTurn(s, i, x);
    }
  }

  lemma OwnProposalBelow(w: World, p: nat, d: SeqMessage)
    requires p in w.nodes && IsMaxOfProposals(w, d)
    ensures d.Key() in w.nodes[p].accepted && w.nodes[p].accepted[d.Key()].proposal <= d.finalSeq
  {
  }

  lemma EntryInTurn(s: NodeState, i: nat, x: QueuedMessage)
    requires Ordered(s) && i < |s.delivered| && x.Key() in s.accepted
    requires s.accepted[x.Key()].deliveredBefore <= i
    requires forall k :: 0 <= k <= i ==> s.delivered[k].Key() != x.Key()
    requires x in s.queue || exists l: nat :: l < |s.delivered| && s.delivered[l] == x
    ensures !Cmp(s.delivered[i], StoodAs(s.id, s.accepted, s.learnt, x, i))
  {
    hide QueueOk, LearntOk, Cmp, StoodAs;
    if x in s.queue {
      assert InTurn(s.id, s.accepted, s.learnt, s.delivered[i], i, x);
    } else {
      var l: nat :| l < |s.delivered| && s.delivered[l] == x;
      assert InTurn(s.id, s.accepted, s.learnt, s.delivered[i], i, s.delivered[l]);
    }
  }

  /** What got ahead of a delivered message was delivered before it. */
  lemma AheadIsEarlier(s: NodeState, i: nat, j: nat)
    requires Ordered(s) && i < |s.delivered| && j < |s.delivered|
    requires Ahead(s, Decision(s.delivered[j]), Decision(s.delivered[i]))
    ensures j < i
  {
    var d, d' := Decision(s.delivered[i]), Decision(s.delivered[j]);
    TimesOf(s, i);
    hide Ordered, Smaller, LearntBy;
    if Late(s, d', d) {
      var k: nat :| IsDelivery(s, d', k) && k < s.accepted[d.Key()].deliveredBefore;
      DeliveredAsOne(s, j, k);
    } else {
      var k: nat :| IsDelivery(s, d', k) && (d.Key() in s.learnt ==> k < s.learnt[d.Key()]);
      DeliveredAsOne(s, j, k);
    }
  }

  lemma TimesOf(s: NodeState, i: nat)
    requires Ordered(s) && i < |s.delivered|
    ensures var m := s.delivered[i].Key();
            m in s.accepted && s.accepted[m].deliveredBefore <= i && m in s.learnt && s.learnt[m] <= i
  {
    hide QueueOk, LearntOk, InTurn;
    assert TakenInBy(s.accepted, s.delivered[i], i) && LearntBy(s.learnt, s.delivered[i], i);
  }

  lemma DeliveredAsOne(s: NodeState, j: nat, k: nat)
    requires Ordered(s) && j < |s.delivered| && k < |s.delivered| && s.delivered[j].Key() == s.delivered[k].Key()
    ensures j == k
  {
    hide Ordered;
    DeliveredOnce(s);
  }

  /** Of two delivered messages the larger comes first exactly if it got ahead of the smaller. */
  lemma InvertedExactlyWhenAhead(w: World, p: nat, i: nat, j: nat)
    requires Inv(w) && p in w.nodes && i < |w.nodes[p].delivered| && j < |w.nodes[p].delivered|
    requires Smaller(Decision(w.nodes[p].delivered[i]), Decision(w.nodes[p].delivered[j]))
    ensures j < i <==> Ahead(w.nodes[p], Decision(w.nodes[p].delivered[j]), Decision(w.nodes[p].delivered[i]))
  {
    hide Inv, Ordered, Ahead, Decided;
    var s := w.nodes[p];
    InvOrdered(w, p);
    DeliveredOnce(s);
    if j < i {
      DeliveredEntry(w, p, i);
      PassedIsAhead(w, p, j, Decision(s.delivered[i]));
    }
    if Ahead(s, Decision(s.delivered[j]), Decision(s.delivered[i])) { AheadIsEarlier(s, i, j); }
  }

  // ---------- when one process delivers in increasing order ----------

  /** No delivery comes out after a later one, in the order of the queue. */
  ghost predicate Increasing(d: seq<QueuedMessage>) {
    forall i, j :: 0 <= i < j < |d| ==> !Cmp(d[i], d[j])
  }

  /** No delivered message got ahead of another. */
  ghost predicate NothingAhead(s: NodeState) {
    forall i, j :: 0 <= i < |s.delivered| && 0 <= j < |s.delivered| ==>
      !Ahead(s, Decision(s.delivered[j]), Decision(s.delivered[i]))
  }

  /** A process delivers in increasing order, proposers breaking ties, exactly when it takes nothing
      in late and nothing is overtaken. */
  lemma IncreasingExactlyWhen(w: World, p: nat)
    requires Reachable(w) && p in w.nodes
    ensures Increasing(w.nodes[p].delivered) <==> NothingAhead(w.nodes[p])
  {
    hide Reachable, Inv, Ahead, Cmp, Smaller, Decision;
    ReachableInv(w);
    var s := w.nodes[p];
    forall i, j | 0 <= i < |s.delivered| && 0 <= j < |s.delivered|
      ensures Cmp(s.delivered[j], s.delivered[i]) && j < i
              <==> Ahead(s, Decision(s.delivered[j]), Decision(s.delivered[i]))
    {
      AheadExactly(w, p, i, j);
    }
  }

  lemma AheadExactly(w: World, p: nat, i: nat, j: nat)
    requires Inv(w) && p in w.nodes && i < |w.nodes[p].delivered| && j < |w.nodes[p].delivered|
    ensures Cmp(w.nodes[p].delivered[j], w.nodes[p].delivered[i]) && j < i
            <==> Ahead(w.nodes[p], Decision(w.nodes[p].delivered[j]), Decision(w.nodes[p].delivered[i]))
  {
    hide Inv, Late, IsDelivery;
    SmallerIsCmp(w.nodes[p].delivered[i], w.nodes[p].delivered[j]);
    var d, d' := Decision(w.nodes[p].delivered[i]), Decision(w.nodes[p].delivered[j]);
    if Ahead(w.nodes[p], d', d) { AheadIsLarger(w.nodes[p], d', d); }
    if Cmp(w.nodes[p].delivered[j], w.nodes[p].delivered[i]) { InvertedExactlyWhenAhead(w, p, i, j); }
  }

  lemma AheadIsLarger(s: NodeState, d': SeqMessage, d: SeqMessage)
    requires Ahead(s, d', d)
    ensures Smaller(d, d')
  {
  }
}
