/** Building concrete runs, event by event. */
module Runs {
  import opened Messages
  import opened NodeSpec
  import opened NodeInvariant
  import opened Machine
  import opened Moves
  import opened PrefixOrder

  /** A reachable state of the system in which the processes are in the states `nodes`. */
  ghost predicate At(w: World, nodes: Nodes, hosts: set<nat>) {
    Reachable(w) && w.hosts == hosts && w.nodes == nodes
  }

  lemma Start(nodes: Nodes, hosts: set<nat>) returns (w: World)
    requires |hosts| >= 2 && nodes.Keys == hosts && forall p :: p in hosts ==> nodes[p] == InitialNode(p)
    ensures At(w, nodes, hosts)
  {
    w := World(hosts, nodes, {});
    assert IsRun([w]) && [w][0] == w;
  }

  lemma LongerRun(run: seq<World>, w': World)
    requires IsRun(run) && Next(run[|run| - 1], w')
    ensures IsRun(run + [w'])
  {
    hide Next, Init;
    var run' := run + [w'];
    forall i | 0 <= i < |run'| - 1 ensures Next(run'[i], run'[i + 1]) {
      if i < |run| - 1 { assert Next(run[i], run[i + 1]); }
    }
  }

  lemma Extend(w: World, p: nat, e: Event, s': NodeState, sent: set<Packet>) returns (w': World)
    requires Reachable(w) && p in w.nodes && Enabled(w, p, e) && NodeNext(w.hosts, w.nodes[p], e, s', sent)
    ensures Reachable(w') && w' == World(w.hosts, w.nodes[p := s'], w.net + sent)
  {
    hide NodeNext;
    w' := World(w.hosts, w.nodes[p := s'], w.net + sent);
    assert NextStep(w, Act(p, e, sent), w');
    var run :| IsRun(run) && run[|run| - 1] == w;
    hide NextStep, IsRun;
    LongerRun(run, w');
    assert (run + [w'])[|run + [w']| - 1] == w';
  }

  lemma Move(w: World, nodes: Nodes, hosts: set<nat>, p: nat, e: Event, s': NodeState, sent: set<Packet>)
    returns (w': World)
    requires At(w, nodes, hosts) && p in nodes && Enabled(w, p, e) && NodeNext(hosts, nodes[p], e, s', sent)
    ensures At(w', nodes[p := s'], hosts) && w'.net == w.net + sent
  {
    hide NodeNext, Enabled, Reachable;
    w' := Extend(w, p, e, s', sent);
  }

  function To(dst: nat, payload: Payload): set<Packet> { {Packet(dst, payload)} }

  lemma Reaches(hosts: set<nat>, p: nat, q: nat, payload: Payload)
    requires q in hosts && p != q
    ensures To(q, payload) <= Others(hosts, p, payload)
  {
  }

  lemma DataArrives(w: World, p: nat, d: DataMessage)
    requires Packet(p, DataPayload(d)) in w.net
    ensures Enabled(w, p, OnData(d))
  {
  }

  lemma AckArrives(w: World, p: nat, a: AckMessage)
    requires Packet(p, AckPayload(a)) in w.net
    ensures Enabled(w, p, OnAck(a))
  {
  }

  lemma SeqArrives(w: World, p: nat, d: SeqMessage)
    requires Packet(p, SeqPayload(d)) in w.net
    ensures Enabled(w, p, OnSeq(d))
  {
  }

  lemma AnyTime(w: World, p: nat, data: nat)
    ensures Enabled(w, p, Multicast(data))
  {
  }

  /** A pair is the decision on a row if it is the largest proposal and its smallest proposer. */
  lemma MaxIs(row: map<nat, nat>, f: nat, fp: nat)
    requires forall h :: h in row ==> 1 <= row[h] <= f && (row[h] == f ==> fp <= h)
    requires fp in row && row[fp] == f
    ensures MaxProposal(row) == (f, fp)
  {
    MaxProposalIsMax(row);
  }

  /** Process `s` collects the last ack, finalises its entry `x` and delivers `out`. */
  lemma Decide(hosts: set<nat>, s: NodeState, a: AckMessage, final: SeqMessage, x: QueuedMessage,
               rest: multiset<QueuedMessage>, q1: multiset<QueuedMessage>,
              out: seq<QueuedMessage>, q': multiset<QueuedMessage>, delivered': seq<QueuedMessage>)
    requires !s.exited && a.msgId in s.ackHistory && a.proposer !in s.ackHistory[a.msgId]
    requires final.Key() == a.Key() == x.Key() && s.queue == rest + multiset{x}
    requires var row := s.ackHistory[a.msgId][a.proposer := a.proposedSeq];
             && row.Keys == hosts && final.finalSeqProposer in row && row[final.finalSeqProposer] == final.finalSeq
             && forall h :: h in row ==>
                  1 <= row[h] <= final.finalSeq && (row[h] == final.finalSeq ==> final.finalSeqProposer <= h)
    requires q1 == rest + multiset{x.Finalised(final.finalSeq, final.finalSeqProposer)} && Drains(q1, out, q')
    requires delivered' == s.delivered + out
    ensures NodeNext(hosts, s, OnAck(a), Deciding(s, a, final, q', delivered'),
                     Others(hosts, s.id, SeqPayload(final)))
  {
    hide FinalisedAndDelivered, NodeNext, Drains, MaxProposal, Deciding, Others;
    var row := s.ackHistory[a.msgId][a.proposer := a.proposedSeq];
    MaxIs(row, final.finalSeq, final.finalSeqProposer);
    assert |row.Keys| == |row|;
    Finalising(s, x, rest, final.finalSeq, final.finalSeqProposer, out, q');
    CanDecide(hosts, s, a, final, q', delivered');
  }

  /** Process `s` learns a final number, finalises its entry `x` and delivers `out`. */
  lemma Learn(hosts: set<nat>, s: NodeState, final: SeqMessage, x: QueuedMessage,
              rest: multiset<QueuedMessage>, q1: multiset<QueuedMessage>,
              out: seq<QueuedMessage>, q': multiset<QueuedMessage>, delivered': seq<QueuedMessage>)
    requires !s.exited && final.Key() == x.Key() && s.queue == rest + multiset{x}
    requires q1 == rest + multiset{x.Finalised(final.finalSeq, final.finalSeqProposer)} && Drains(q1, out, q')
    requires delivered' == s.delivered + out
    ensures NodeNext(hosts, s, OnSeq(final), Learning(s, final, q', delivered'), {})
  {
    hide FinalisedAndDelivered, NodeNext, Drains, Learning;
    Finalising(s, x, rest, final.finalSeq, final.finalSeqProposer, out, q');
    assert x in s.queue;
    CanLearn(hosts, s, final, q', delivered');
  }

  // ---------- draining short queues ----------

  lemma DrainsNothing(q: multiset<QueuedMessage>, front: QueuedMessage)
    requires front in q && front.status.Undeliverable? && forall y :: y in q ==> !Cmp(front, y)
    ensures Drains(q, [], q)
  {
  }

  lemma DrainsOne(x: QueuedMessage, rest: multiset<QueuedMessage>)
    requires Stopped(rest) && x.status.Deliverable? && forall z :: z in rest ==> !Cmp(x, z)
    ensures Drains(rest + multiset{x}, [x], rest)
  {
    hide Cmp, Stopped;
  }

  lemma DrainsTwo(x: QueuedMessage, y: QueuedMessage, rest: multiset<QueuedMessage>)
    requires Stopped(rest) && x.status.Deliverable? && y.status.Deliverable? && !Cmp(x, y)
    requires forall z :: z in rest ==> !Cmp(x, z) && !Cmp(y, z)
    ensures Drains(rest + multiset{x, y}, [x, y], rest)
  {
    hide Cmp, Stopped;
    assert multiset([x, y]) == multiset{x, y};
  }

  lemma DrainsThree(x: QueuedMessage, y: QueuedMessage, z: QueuedMessage)
    requires x.status.Deliverable? && y.status.Deliverable? && z.status.Deliverable?
    requires !Cmp(x, y) && !Cmp(y, z) && !Cmp(x, z)
    ensures Drains(multiset{x, y, z}, [x, y, z], multiset{})
  {
    hide Cmp;
    assert multiset([x, y, z]) == multiset{x, y, z};
  }

  // ---------- everything delivered ----------

  ghost predicate Has(s: NodeState, m: MsgKey) {
    exists i :: 0 <= i < |s.delivered| && s.delivered[i].Key() == m
  }

  lemma AllHave(w: World)
    requires forall p, q, k :: p in w.nodes && q in w.nodes && k in w.nodes[q].dataHistory ==>
               Has(w.nodes[p], MsgKey(q, k))
    ensures AllDelivered(w)
  {
    forall p, q, k | p in w.nodes && q in w.nodes && k in w.nodes[q].dataHistory
      ensures exists i :: 0 <= i < |w.nodes[p].delivered| && w.nodes[p].delivered[i].Key() == MsgKey(q, k)
    {
      assert Has(w.nodes[p], MsgKey(q, k));
    }
  }
}
