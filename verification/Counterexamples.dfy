/** Two runs of two processes of the program as written: one in which a message taken in late is
    delivered out of order, and one in which the order of two messages is left to the heap. */
module Counterexamples {
  import opened Messages
  import opened NodeSpec
  import opened NodeInvariant
  import opened Machine
  import opened Moves
  import opened Agreement
  import opened TotalOrder
  import opened PrefixOrder
  import opened SingleSender
  import opened Runs

  const HOSTS: set<nat> := {1, 2}

  function Duo(a: NodeState, b: NodeState): Nodes {
    map[1 := a, 2 := b]
  }

  lemma DuoKeys(a: NodeState, b: NodeState)
    ensures Duo(a, b).Keys == HOSTS && |HOSTS| == 2 && Duo(a, b)[1] == a && Duo(a, b)[2] == b
  {
  }

  lemma DuoAt(w: World, a: NodeState, b: NodeState)
    requires At(w, Duo(a, b), HOSTS)
    ensures Reachable(w) && w.nodes.Keys == {1, 2} && w.nodes[1] == a && w.nodes[2] == b
    ensures forall p :: p in w.nodes ==> p == 1 || p == 2
  {
    hide Reachable;
  }

  lemma Begin() returns (w: World)
    ensures At(w, Duo(InitialNode(1), InitialNode(2)), HOSTS)
  {
    hide At, Duo;
    DuoKeys(InitialNode(1), InitialNode(2));
    w := Start(Duo(InitialNode(1), InitialNode(2)), HOSTS);
  }

  lemma Move1(w: World, a: NodeState, b: NodeState, e: Event, a': NodeState, sent: set<Packet>) returns (w': World)
    requires At(w, Duo(a, b), HOSTS) && Enabled(w, 1, e) && NodeNext(HOSTS, a, e, a', sent)
    ensures At(w', Duo(a', b), HOSTS) && w'.net == w.net + sent
  {
    hide NodeNext, Enabled, At;
    w' := Move(w, Duo(a, b), HOSTS, 1, e, a', sent);
    assert Duo(a, b)[1 := a'] == Duo(a', b);
  }

  lemma Move2(w: World, a: NodeState, b: NodeState, e: Event, b': NodeState, sent: set<Packet>) returns (w': World)
    requires At(w, Duo(a, b), HOSTS) && Enabled(w, 2, e) && NodeNext(HOSTS, b, e, b', sent)
    ensures At(w', Duo(a, b'), HOSTS) && w'.net == w.net + sent
  {
    hide NodeNext, Enabled, At;
    w' := Move(w, Duo(a, b), HOSTS, 2, e, b', sent);
    assert Duo(a, b)[2 := b'] == Duo(a, b');
  }

  // ---------- one sender, one pair of packets out of order ----------
  //
  // Process 1 multicasts (1,0) and (1,1). Process 2 gets (1,1) first, proposes 1 and delivers it
  // under the final number 3; only then it gets (1,0), for which it proposes no more than 2.

  const DATA_0 := DataMessage(1, 0, 10)
  const DATA_1 := DataMessage(1, 1, 20)
  const ACK_0 := AckMessage(1, 0, 2, 2)
  const ACK_1 := AckMessage(1, 1, 1, 2)
  const FINAL_0 := SeqMessage(1, 0, 2, 1)
  const FINAL_1 := SeqMessage(1, 1, 3, 1)
  const OWN_0 := QueuedMessage(2, Undeliverable, 1, 0, 10, 1)
  const OWN_1 := QueuedMessage(3, Undeliverable, 1, 1, 20, 1)
  const LAST_0 := QueuedMessage(2, Deliverable, 1, 0, 10, 1)
  const LAST_1 := QueuedMessage(3, Deliverable, 1, 1, 20, 1)

  const S1 := Multicasting(InitialNode(1), 10)
  const S2 := Multicasting(S1, 20)
  const S3 := Deciding(S2, ACK_1, FINAL_1, multiset{OWN_0, LAST_1}, [])
  const S4 := Deciding(S3, ACK_0, FINAL_0, multiset{}, [LAST_0, LAST_1])

  const A1 := TakingIn(InitialNode(2), DATA_1)
  const A2 := Learning(A1, FINAL_1, multiset{}, [LAST_1])
  const A3 := TakingIn(A2, DATA_0)
  const A4 := Learning(A3, FINAL_0, multiset{}, [LAST_1, LAST_0])

  lemma Send0()
    ensures NodeNext(HOSTS, InitialNode(1), Multicast(10), S1, Others(HOSTS, 1, DataPayload(DATA_0)))
  {
    hide NodeNext, Others;
    CanMulticast(HOSTS, InitialNode(1), 10);
  }

  lemma Send1()
    ensures NodeNext(HOSTS, S1, Multicast(20), S2, Others(HOSTS, 1, DataPayload(DATA_1)))
  {
    hide NodeNext, Others;
    CanMulticast(HOSTS, S1, 20);
  }

  lemma Take1()
    ensures NodeNext(HOSTS, InitialNode(2), OnData(DATA_1), A1, To(1, AckPayload(ACK_1)))
  {
    hide NodeNext;
    CanTakeIn(HOSTS, InitialNode(2), DATA_1);
  }

  lemma FactsS2()
    ensures S2.queue == multiset{OWN_0} + multiset{OWN_1} && S2.delivered == [] && !S2.exited && S2.id == 1
    ensures S2.ackHistory == map[0 := map[1 := 2], 1 := map[1 := 3]]
  {
  }

  lemma Decide1()
    ensures NodeNext(HOSTS, S2, OnAck(ACK_1), S3, Others(HOSTS, 1, SeqPayload(FINAL_1)))
  {
    hide NodeNext, Others, Drains, S2, Deciding;
    FactsS2();
    var q := multiset{OWN_0, LAST_1};
    DrainsNothing(q, OWN_0);
    Decide(HOSTS, S2, ACK_1, FINAL_1, OWN_1, multiset{OWN_0}, q, [], q, []);
  }

  lemma Learn1()
    ensures NodeNext(HOSTS, A1, OnSeq(FINAL_1), A2, {})
  {
    hide NodeNext, Drains;
    DrainsOne(LAST_1, multiset{});
    Learn(HOSTS, A1, FINAL_1, QueuedMessage(1, Undeliverable, 1, 1, 20, 2), multiset{}, multiset{} + multiset{LAST_1},
          [LAST_1], multiset{}, [LAST_1]);
  }

  lemma Take0()
    ensures NodeNext(HOSTS, A2, OnData(DATA_0), A3, To(1, AckPayload(ACK_0)))
  {
    hide NodeNext;
    assert forall a :: a in A2.acked ==> a == ACK_1;
    CanTakeIn(HOSTS, A2, DATA_0);
  }

  lemma Decide0()
    ensures NodeNext(HOSTS, S3, OnAck(ACK_0), S4, Others(HOSTS, 1, SeqPayload(FINAL_0)))
  {
    hide NodeNext, Others, Drains, S2;
    FactsS2();
    var q1, out := multiset{} + multiset{LAST_0, LAST_1}, [LAST_0, LAST_1];
    DrainsTwo(LAST_0, LAST_1, multiset{});
    Decide(HOSTS, S3, ACK_0, FINAL_0, OWN_0, multiset{LAST_1}, q1, out, multiset{}, out);
  }

  lemma Learn0()
    ensures NodeNext(HOSTS, A3, OnSeq(FINAL_0), A4, {})
  {
    hide NodeNext, Drains;
    DrainsOne(LAST_0, multiset{});
    Learn(HOSTS, A3, FINAL_0, QueuedMessage(2, Undeliverable, 1, 0, 10, 2), multiset{}, multiset{} + multiset{LAST_0},
          [LAST_0], multiset{}, [LAST_1, LAST_0]);
  }

  lemma ReorderedRun() returns (w: World)
    ensures At(w, Duo(S4, A4), HOSTS)
  {
    hide *;
    w := Begin();
    w := Move1(w, InitialNode(1), InitialNode(2), Multicast(10), S1, Others(HOSTS, 1, DataPayload(DATA_0))) by {
      AnyTime(w, 1, 10);
      Send0();
    }
    Reaches2(DataPayload(DATA_0));
    w := Move1(w, S1, InitialNode(2), Multicast(20), S2, Others(HOSTS, 1, DataPayload(DATA_1))) by {
      AnyTime(w, 1, 20);
      Send1();
    }
    Reaches2(DataPayload(DATA_1));
    w := Move2(w, S2, InitialNode(2), OnData(DATA_1), A1, To(1, AckPayload(ACK_1))) by {
      DataArrives(w, 2, DATA_1);
      Take1();
    }
    IsIn(1, AckPayload(ACK_1));
    w := Move1(w, S2, A1, OnAck(ACK_1), S3, Others(HOSTS, 1, SeqPayload(FINAL_1))) by {
      AckArrives(w, 1, ACK_1);
      Decide1();
    }
    Reaches2(SeqPayload(FINAL_1));
    w := Move2(w, S3, A1, OnSeq(FINAL_1), A2, {}) by {
      SeqArrives(w, 2, FINAL_1);
      Learn1();
    }
    w := Move2(w, S3, A2, OnData(DATA_0), A3, To(1, AckPayload(ACK_0))) by {
      DataArrives(w, 2, DATA_0);
      Take0();
    }
    IsIn(1, AckPayload(ACK_0));
    w := Move1(w, S3, A3, OnAck(ACK_0), S4, Others(HOSTS, 1, SeqPayload(FINAL_0))) by {
      AckArrives(w, 1, ACK_0);
      Decide0();
    }
    Reaches2(SeqPayload(FINAL_0));
    w := Move2(w, S4, A3, OnSeq(FINAL_0), A4, {}) by {
      SeqArrives(w, 2, FINAL_0);
      Learn0();
    }
  }

  lemma Reaches2(payload: Payload)
    ensures Packet(2, payload) in Others(HOSTS, 1, payload)
  {
  }

  lemma Reaches1(payload: Payload)
    ensures Packet(1, payload) in Others(HOSTS, 2, payload)
  {
  }

  lemma IsIn(p: nat, payload: Payload)
    ensures Packet(p, payload) in To(p, payload)
  {
  }

  lemma Reordered1()
    ensures S4.dataHistory == map[0 := 10, 1 := 20] && S4.seqHistory == {FINAL_1, FINAL_0}
    ensures S4.delivered == [LAST_0, LAST_1]
  {
  }

  lemma Reordered2()
    ensures A4.dataHistory == map[] && A4.seqHistory == {FINAL_1, FINAL_0} && A4.delivered == [LAST_1, LAST_0]
    ensures FINAL_0.Key() in A4.accepted && A4.accepted[FINAL_0.Key()].deliveredBefore == 1
  {
  }

  lemma HasBoth(s: NodeState)
    requires s.delivered == [LAST_0, LAST_1] || s.delivered == [LAST_1, LAST_0]
    ensures Has(s, MsgKey(1, 0)) && Has(s, MsgKey(1, 1))
  {
    var i := if s.delivered[0] == LAST_0 then 0 else 1;
    assert s.delivered[i].Key() == MsgKey(1, 0) && s.delivered[1 - i].Key() == MsgKey(1, 1);
  }

  lemma ReorderedDecisions(w: World, a: NodeState, b: NodeState)
    requires w.nodes == Duo(a, b) && a.seqHistory == {FINAL_1, FINAL_0} == b.seqHistory
    ensures DistinctFinals(w)
  {
  }

  lemma OutcomeOfReordering(w: World, a: NodeState, b: NodeState)
    requires w.nodes == Duo(a, b)
    requires a.dataHistory == map[0 := 10, 1 := 20] && b.dataHistory == map[]
    requires a.seqHistory == {FINAL_1, FINAL_0} == b.seqHistory
    requires a.delivered == [LAST_0, LAST_1] && b.delivered == [LAST_1, LAST_0]
    ensures OnlySender(w, 1) && DistinctFinals(w) && AllDelivered(w)
  {
    hide AllDelivered, DistinctFinals, Has;
    HasBoth(a);
    HasBoth(b);
    ReorderedDecisions(w, a, b);
    hide LAST_0, LAST_1, FINAL_0, FINAL_1;
    forall p, q, k | p in w.nodes && q in w.nodes && k in w.nodes[q].dataHistory
      ensures Has(w.nodes[p], MsgKey(q, k))
    {
      assert q == 1 && (k == 0 || k == 1);
    }
    AllHave(w);
  }

  lemma TakenInLate(b: NodeState)
    requires b.delivered == [LAST_1, LAST_0]
    requires FINAL_0.Key() in b.accepted && b.accepted[FINAL_0.Key()].deliveredBefore == 1
    ensures Late(b, FINAL_1, FINAL_0)
  {
    assert IsDelivery(b, FINAL_1, 0);
  }

  lemma NodesOf(w: World, a: NodeState, b: NodeState)
    requires At(w, Duo(a, b), HOSTS)
    ensures w.nodes == Duo(a, b)
  {
  }

  /** Two hosts, one sender, nothing lost, final numbers distinct, everything delivered: the two
      messages are delivered in opposite orders, because process 2 took (1,0) in late. */
  lemma OneSenderTwoOrders() returns (w: World)
    ensures Reachable(w) && w.nodes.Keys == {1, 2}
    ensures OnlySender(w, 1) && DistinctFinals(w) && AllDelivered(w)
    ensures w.nodes[1].delivered == [LAST_0, LAST_1] && w.nodes[2].delivered == [LAST_1, LAST_0]
    ensures Late(w.nodes[2], FINAL_1, FINAL_0)
  {
    hide *;
    w := ReorderedRun();
    DuoAt(w, S4, A4);
    NodesOf(w, S4, A4);
    Reordered1();
    Reordered2();
    OutcomeOfReordering(w, S4, A4);
    TakenInLate(A4);
  }

  // ---------- two senders, equal pairs: the order is left to the heap ----------
  //
  // Each process multicasts one message and then gets the other's. Both messages are decided under
  // (2, 1): process 1 uses 2 twice, and of the equal proposals the smaller proposer is credited.
  // When process 1 decides its own message, both its entries stand under (2, 1), one deliverable and
  // one not, and either may be in front.

  const DATA_X := DataMessage(1, 0, 10)
  const DATA_Z := DataMessage(2, 0, 20)
  const ACK_X := AckMessage(1, 0, 2, 2)
  const ACK_Z := AckMessage(2, 0, 2, 1)
  const FINAL_X := SeqMessage(1, 0, 2, 1)
  const FINAL_Z := SeqMessage(2, 0, 2, 1)
  const X_AT_1 := QueuedMessage(2, Undeliverable, 1, 0, 10, 1)
  const Z_AT_1 := QueuedMessage(2, Undeliverable, 2, 0, 20, 1)
  const X_AT_2 := QueuedMessage(2, Undeliverable, 1, 0, 10, 2)
  const Z_AT_2 := QueuedMessage(2, Undeliverable, 2, 0, 20, 2)
  const LAST_X := QueuedMessage(2, Deliverable, 1, 0, 10, 1)
  const LAST_Z := QueuedMessage(2, Deliverable, 2, 0, 20, 1)

  const P1 := Multicasting(InitialNode(1), 10)
  const P2 := TakingIn(P1, DATA_Z)
  const P3 := Deciding(P2, ACK_X, FINAL_X, multiset{Z_AT_1}, [LAST_X])
  const P4 := Learning(P3, FINAL_Z, multiset{}, [LAST_X, LAST_Z])
  const P3B := Deciding(P2, ACK_X, FINAL_X, multiset{Z_AT_1, LAST_X}, [])
  const P4B := Learning(P3B, FINAL_Z, multiset{}, [LAST_Z, LAST_X])

  const Q1 := Multicasting(InitialNode(2), 20)
  const Q2 := TakingIn(Q1, DATA_X)
  const Q3 := Deciding(Q2, ACK_Z, FINAL_Z, multiset{X_AT_2}, [LAST_Z])
  const Q4 := Learning(Q3, FINAL_X, multiset{}, [LAST_Z, LAST_X])

  lemma SendX()
    ensures NodeNext(HOSTS, InitialNode(1), Multicast(10), P1, Others(HOSTS, 1, DataPayload(DATA_X)))
  {
    hide NodeNext, Others;
    CanMulticast(HOSTS, InitialNode(1), 10);
  }

  lemma SendZ()
    ensures NodeNext(HOSTS, InitialNode(2), Multicast(20), Q1, Others(HOSTS, 2, DataPayload(DATA_Z)))
  {
    hide NodeNext, Others;
    CanMulticast(HOSTS, InitialNode(2), 20);
  }

  lemma TakeX()
    ensures NodeNext(HOSTS, Q1, OnData(DATA_X), Q2, To(1, AckPayload(ACK_X)))
  {
    hide NodeNext;
    CanTakeIn(HOSTS, Q1, DATA_X);
  }

  lemma TakeZ()
    ensures NodeNext(HOSTS, P1, OnData(DATA_Z), P2, To(2, AckPayload(ACK_Z)))
  {
    hide NodeNext;
    CanTakeIn(HOSTS, P1, DATA_Z);
  }

  lemma FactsP2()
    ensures P2.queue == multiset{Z_AT_1} + multiset{X_AT_1} && P2.delivered == [] && !P2.exited && P2.id == 1
    ensures P2.ackHistory == map[0 := map[1 := 2]]
  {
  }

  lemma FactsQ2()
    ensures Q2.queue == multiset{X_AT_2} + multiset{Z_AT_2} && Q2.delivered == [] && !Q2.exited && Q2.id == 2
    ensures Q2.ackHistory == map[0 := map[2 := 2]]
  {
  }

  /** The entry that is not deliverable may stay behind the deliverable one ... */
  lemma DecideX()
    ensures NodeNext(HOSTS, P2, OnAck(ACK_X), P3, Others(HOSTS, 1, SeqPayload(FINAL_X)))
  {
    hide NodeNext, Others, Drains, P2, Deciding;
    FactsP2();
    DrainsOne(LAST_X, multiset{Z_AT_1});
    Decide(HOSTS, P2, ACK_X, FINAL_X, X_AT_1, multiset{Z_AT_1}, multiset{Z_AT_1} + multiset{LAST_X}, [LAST_X],
           multiset{Z_AT_1}, [LAST_X]);
  }

  /** ... or in front of it. */
  lemma DecideXBlocked()
    ensures NodeNext(HOSTS, P2, OnAck(ACK_X), P3B, Others(HOSTS, 1, SeqPayload(FINAL_X)))
  {
    hide NodeNext, Others, Drains, P2, Deciding;
    FactsP2();
    var q := multiset{Z_AT_1, LAST_X};
    DrainsNothing(q, Z_AT_1);
    Decide(HOSTS, P2, ACK_X, FINAL_X, X_AT_1, multiset{Z_AT_1}, q, [], q, []);
  }

  lemma DecideZ()
    ensures NodeNext(HOSTS, Q2, OnAck(ACK_Z), Q3, Others(HOSTS, 2, SeqPayload(FINAL_Z)))
  {
    hide NodeNext, Others, Drains, Q2, Deciding;
    FactsQ2();
    DrainsOne(LAST_Z, multiset{X_AT_2});
    Decide(HOSTS, Q2, ACK_Z, FINAL_Z, Z_AT_2, multiset{X_AT_2}, multiset{X_AT_2} + multiset{LAST_Z}, [LAST_Z],
           multiset{X_AT_2}, [LAST_Z]);
  }

  lemma LearnZ()
    ensures NodeNext(HOSTS, P3, OnSeq(FINAL_Z), P4, {})
  {
    hide NodeNext, Drains, P2;
    FactsP2();
    DrainsOne(LAST_Z, multiset{});
    Learn(HOSTS, P3, FINAL_Z, Z_AT_1, multiset{}, multiset{} + multiset{LAST_Z}, [LAST_Z],
          multiset{}, [LAST_X, LAST_Z]);
  }

  lemma LearnZBlocked()
    ensures NodeNext(HOSTS, P3B, OnSeq(FINAL_Z), P4B, {})
  {
    hide NodeNext, Drains, P2;
    FactsP2();
    DrainsTwo(LAST_Z, LAST_X, multiset{});
    Learn(HOSTS, P3B, FINAL_Z, Z_AT_1, multiset{LAST_X}, multiset{} + multiset{LAST_Z, LAST_X}, [LAST_Z, LAST_X],
          multiset{}, [LAST_Z, LAST_X]);
  }

  lemma LearnX()
    ensures NodeNext(HOSTS, Q3, OnSeq(FINAL_X), Q4, {})
  {
    hide NodeNext, Drains, Q2;
    FactsQ2();
    DrainsOne(LAST_X, multiset{});
    Learn(HOSTS, Q3, FINAL_X, X_AT_2, multiset{}, multiset{} + multiset{LAST_X}, [LAST_X],
          multiset{}, [LAST_Z, LAST_X]);
  }

  /** Both processes have both messages, and process 2 has decided its own. */
  lemma BothTaken() returns (w: World)
    ensures At(w, Duo(P2, Q3), HOSTS)
    ensures Packet(1, AckPayload(ACK_X)) in w.net && Packet(1, SeqPayload(FINAL_Z)) in w.net
  {
    hide *;
    w := Begin();
    w := Move1(w, InitialNode(1), InitialNode(2), Multicast(10), P1, Others(HOSTS, 1, DataPayload(DATA_X))) by {
      AnyTime(w, 1, 10);
      SendX();
    }
    Reaches2(DataPayload(DATA_X));
    w := Move2(w, P1, InitialNode(2), Multicast(20), Q1, Others(HOSTS, 2, DataPayload(DATA_Z))) by {
      AnyTime(w, 2, 20);
      SendZ();
    }
    Reaches1(DataPayload(DATA_Z));
    w := Move2(w, P1, Q1, OnData(DATA_X), Q2, To(1, AckPayload(ACK_X))) by {
      DataArrives(w, 2, DATA_X);
      TakeX();
    }
    IsIn(1, AckPayload(ACK_X));
    w := Move1(w, P1, Q2, OnData(DATA_Z), P2, To(2, AckPayload(ACK_Z))) by {
      DataArrives(w, 1, DATA_Z);
      TakeZ();
    }
    IsIn(2, AckPayload(ACK_Z));
    w := Move2(w, P2, Q2, OnAck(ACK_Z), Q3, Others(HOSTS, 2, SeqPayload(FINAL_Z))) by {
      AckArrives(w, 2, ACK_Z);
      DecideZ();
    }
    Reaches1(SeqPayload(FINAL_Z));
  }

  /** The rest of the run, for either successor `p3` that the heap may lead to. */
  lemma Finish(w0: World, p3: NodeState, p4: NodeState) returns (w: World)
    requires At(w0, Duo(P2, Q3), HOSTS)
    requires Packet(1, AckPayload(ACK_X)) in w0.net && Packet(1, SeqPayload(FINAL_Z)) in w0.net
    requires NodeNext(HOSTS, P2, OnAck(ACK_X), p3, Others(HOSTS, 1, SeqPayload(FINAL_X)))
    requires NodeNext(HOSTS, p3, OnSeq(FINAL_Z), p4, {})
    ensures At(w, Duo(p4, Q4), HOSTS) && w.net == w0.net + Others(HOSTS, 1, SeqPayload(FINAL_X))
  {
    hide *;
    w := Move1(w0, P2, Q3, OnAck(ACK_X), p3, Others(HOSTS, 1, SeqPayload(FINAL_X))) by { AckArrives(w0, 1, ACK_X); }
    Reaches2(SeqPayload(FINAL_X));
    w := Move1(w, p3, Q3, OnSeq(FINAL_Z), p4, {}) by { SeqArrives(w, 1, FINAL_Z); }
    w := Move2(w, p4, Q3, OnSeq(FINAL_X), Q4, {}) by {
      SeqArrives(w, 2, FINAL_X);
      LearnX();
    }
  }

  /** What the final states of both runs have in common. */
  ghost predicate Tied(s: NodeState) {
    && s.seqHistory == {FINAL_X, FINAL_Z}
    && (s.delivered == [LAST_X, LAST_Z] || s.delivered == [LAST_Z, LAST_X])
  }

  lemma TiedAt1()
    ensures Tied(P4) && Tied(P4B) && P4.dataHistory == map[0 := 10] == P4B.dataHistory
    ensures P4.delivered == [LAST_X, LAST_Z] && P4B.delivered == [LAST_Z, LAST_X]
    ensures P4B.(delivered := P4.delivered, learnt := P4.learnt) == P4
  {
    hide P2;
    FactsP2();
    DataP2();
  }

  lemma DataP2()
    ensures P2.dataHistory == map[0 := 10] && P2.seqHistory == {}
  {
  }

  lemma TiedAt2()
    ensures Tied(Q4) && Q4.dataHistory == map[0 := 20] && Q4.delivered == [LAST_Z, LAST_X]
  {
  }

  lemma TiedHasBoth(s: NodeState)
    requires Tied(s)
    ensures Has(s, MsgKey(1, 0)) && Has(s, MsgKey(2, 0))
  {
    var i := if s.delivered[0] == LAST_X then 0 else 1;
    assert s.delivered[i].Key() == MsgKey(1, 0) && s.delivered[1 - i].Key() == MsgKey(2, 0);
  }

  lemma TiedIsDelivered(w: World, a: NodeState, b: NodeState)
    requires w.nodes == Duo(a, b) && Tied(a) && Tied(b)
    requires a.dataHistory == map[0 := 10] && b.dataHistory == map[0 := 20]
    ensures AllDelivered(w) && Decided(w, FINAL_X) && Decided(w, FINAL_Z)
  {
    TiedHasBoth(a);
    TiedHasBoth(b);
    assert FINAL_X in a.seqHistory && FINAL_Z in b.seqHistory;
    hide Tied, Has;
    forall p, q, k | p in w.nodes && q in w.nodes && k in w.nodes[q].dataHistory ensures Has(w.nodes[p], MsgKey(q, k)) {
      assert k == 0 && (q == 1 || q == 2);
    }
    hide FINAL_X, FINAL_Z, Decided;
    assert AllDelivered(w) by { AllHave(w); }
  }

  lemma TiedDecisions(w: World, a: NodeState, b: NodeState, d: SeqMessage)
    requires w.nodes == Duo(a, b) && Tied(a) && Tied(b) && Decided(w, d)
    ensures d == FINAL_X || d == FINAL_Z
  {
  }

  lemma TiedIsDone(w: World, a: NodeState, b: NodeState)
    requires w.nodes == Duo(a, b) && Tied(a) && Tied(b)
    requires a.dataHistory == map[0 := 10] && b.dataHistory == map[0 := 20]
    ensures AllDelivered(w) && Decided(w, FINAL_X) && Decided(w, FINAL_Z)
    ensures NobodyLate(w) && NobodyOvertaken(w)
  {
    hide Late, Overtaken, AllDelivered, Decided, Duo, Tied;
    TiedIsDelivered(w, a, b);
    forall p, d, d' | p in w.nodes && Decided(w, d) && Decided(w, d')
      ensures !Late(w.nodes[p], d', d) && !Overtaken(w.nodes[p], d', d)
    {
      TiedDecisions(w, a, b, d);
      TiedDecisions(w, a, b, d');
      SamePair(w.nodes[p], d', d);
    }
  }

  lemma SamePair(s: NodeState, d': SeqMessage, d: SeqMessage)
    requires d.finalSeq == d'.finalSeq && d.finalSeqProposer == d'.finalSeqProposer
    ensures !Late(s, d', d) && !Overtaken(s, d', d)
  {
  }

  /** Messages that share number and proposer: two states the program can reach in which the same
      packets were sent and received by everybody, so that the processes differ in nothing but what the
      heap put in front at process 1. In one the lists are equal, in the other they are not. */
  lemma EqualPairsLeaveOrderOpen() returns (w: World, w': World)
    ensures Reachable(w) && Reachable(w') && w.nodes.Keys == {1, 2} == w'.nodes.Keys && w.net == w'.net
    ensures AllDelivered(w) && NobodyLate(w) && NobodyOvertaken(w) && Decided(w, FINAL_X) && Decided(w, FINAL_Z)
    ensures AllDelivered(w') && NobodyLate(w') && NobodyOvertaken(w')
    ensures w'.nodes[2] == w.nodes[2]
    ensures w'.nodes[1].(delivered := w.nodes[1].delivered, learnt := w.nodes[1].learnt) == w.nodes[1]
    ensures w.nodes[1].delivered == [LAST_X, LAST_Z] && w.nodes[2].delivered == [LAST_Z, LAST_X]
    ensures w'.nodes[1].delivered == [LAST_Z, LAST_X]
  {
    hide *;
    var w0 := BothTaken();
    DecideX();
    LearnZ();
    w := Finish(w0, P3, P4);
    DecideXBlocked();
    LearnZBlocked();
    w' := Finish(w0, P3B, P4B);
    DuoAt(w, P4, Q4);
    DuoAt(w', P4B, Q4);
    NodesOf(w, P4, Q4);
    NodesOf(w', P4B, Q4);
    TiedAt1();
    TiedAt2();
    TiedIsDone(w, P4, Q4);
    TiedIsDone(w', P4B, Q4);
  }
}
