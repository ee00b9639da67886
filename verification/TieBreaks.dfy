/** A run of the program as written in which the opposite tie-breaks alone make two processes deliver
    in different orders: nobody takes a message in late and no two messages share their final number
    and its proposer. */
module TieBreaks {
  import opened Messages
  import opened NodeSpec
  import opened NodeInvariant
  import opened Machine
  import opened Moves
  import opened Agreement
  import opened TotalOrder
  import opened PrefixOrder
  import opened Runs

  // Process 2 multicasts (2,0) and (2,1), process 1 multicasts (1,0). All three processes propose 3
  // for (1,0), so it is decided under (3,1); (2,1) is decided under (3,2). Process 3 learns (3,2)
  // first and delivers (2,1), as its own entry for (1,0) still stands under (3,3).

  const HOSTS: set<nat> := {1, 2, 3}

  const DATA_X := DataMessage(1, 0, 10)
  const DATA_Z := DataMessage(2, 0, 20)
  const DATA_Y := DataMessage(2, 1, 30)
  const FINAL_X := SeqMessage(1, 0, 3, 1)
  const FINAL_Y := SeqMessage(2, 1, 3, 2)
  const FINAL_Z := SeqMessage(2, 0, 4, 1)
  const LAST_X := QueuedMessage(3, Deliverable, 1, 0, 10, 1)
  const LAST_Y := QueuedMessage(3, Deliverable, 2, 1, 30, 2)
  const LAST_Z := QueuedMessage(4, Deliverable, 2, 0, 20, 1)

  /** The entry of a message that process `h` has taken in under the number `n`. */
  function Entry(d: DataMessage, n: nat, h: nat): QueuedMessage {
    QueuedMessage(n, Undeliverable, d.sender, d.msgId, d.data, h)
  }

  function AckOf(d: DataMessage, n: nat, h: nat): AckMessage {
    AckMessage(d.sender, d.msgId, n, h)
  }

  // ---------- process 1 ----------

  const P1 := TakingIn(InitialNode(1), DATA_Y)
  const P2 := Multicasting(P1, 10)
  const P3 := Collecting(P2, AckOf(DATA_X, 3, 3))
  const P4 := TakingIn(P3, DATA_Z)
  const P5 := Deciding(P4, AckOf(DATA_X, 3, 2), FINAL_X,
                       multiset{Entry(DATA_Y, 1, 1), LAST_X, Entry(DATA_Z, 4, 1)}, [])
  const P6 := Learning(P5, FINAL_Y, multiset{Entry(DATA_Z, 4, 1)}, [LAST_X, LAST_Y])
  const P7 := Learning(P6, FINAL_Z, multiset{}, [LAST_X, LAST_Y, LAST_Z])

  lemma FactsP4()
    ensures P4.queue == multiset{Entry(DATA_Y, 1, 1), Entry(DATA_Z, 4, 1)} + multiset{Entry(DATA_X, 3, 1)}
    ensures P4.ackHistory == map[0 := map[1 := 3, 3 := 3]] && P4.delivered == [] && !P4.exited && P4.id == 1
  {
  }

  lemma DecideX()
    ensures NodeNext(HOSTS, P4, OnAck(AckOf(DATA_X, 3, 2)), P5, Others(HOSTS, 1, SeqPayload(FINAL_X)))
  {
    hide NodeNext, Others, Drains, P4, Deciding;
    FactsP4();
    var rest := multiset{Entry(DATA_Y, 1, 1), Entry(DATA_Z, 4, 1)};
    var q := multiset{Entry(DATA_Y, 1, 1), LAST_X, Entry(DATA_Z, 4, 1)};
    DrainsNothing(q, Entry(DATA_Y, 1, 1));
    Decide(HOSTS, P4, AckOf(DATA_X, 3, 2), FINAL_X, Entry(DATA_X, 3, 1), rest, q, [], q, []);
  }

  lemma LearnYAt1()
    ensures NodeNext(HOSTS, P5, OnSeq(FINAL_Y), P6, {})
  {
    hide NodeNext, Drains, P4;
    FactsP4();
    var rest, q' := multiset{LAST_X, Entry(DATA_Z, 4, 1)}, multiset{Entry(DATA_Z, 4, 1)};
    var q1 := q' + multiset{LAST_X, LAST_Y};
    DrainsTwo(LAST_X, LAST_Y, q');
    Learn(HOSTS, P5, FINAL_Y, Entry(DATA_Y, 1, 1), rest, q1, [LAST_X, LAST_Y], q', [LAST_X, LAST_Y]);
  }

  lemma LearnZAt1()
    ensures NodeNext(HOSTS, P6, OnSeq(FINAL_Z), P7, {})
  {
    hide NodeNext, Drains, P4;
    FactsP4();
    DrainsOne(LAST_Z, multiset{});
    Learn(HOSTS, P6, FINAL_Z, Entry(DATA_Z, 4, 1), multiset{}, multiset{} + multiset{LAST_Z}, [LAST_Z],
          multiset{}, [LAST_X, LAST_Y, LAST_Z]);
  }

  // ---------- process 2 ----------

  const Q1 := Multicasting(InitialNode(2), 20)
  const Q2 := Multicasting(Q1, 30)
  const Q3 := TakingIn(Q2, DATA_X)
  const Q4 := Learning(Q3, FINAL_X, multiset{Entry(DATA_Z, 2, 2), Entry(DATA_Y, 3, 2), LAST_X}, [])
  const Q5 := Collecting(Q4, AckOf(DATA_Y, 1, 1))
  const Q6 := Deciding(Q5, AckOf(DATA_Y, 2, 3), FINAL_Y, multiset{Entry(DATA_Z, 2, 2), LAST_Y, LAST_X}, [])
  const Q7 := Collecting(Q6, AckOf(DATA_Z, 1, 3))
  const Q8 := Deciding(Q7, AckOf(DATA_Z, 4, 1), FINAL_Z, multiset{}, [LAST_X, LAST_Y, LAST_Z])

  lemma FactsQ3()
    ensures Q3.queue == multiset{Entry(DATA_Z, 2, 2), Entry(DATA_Y, 3, 2)} + multiset{Entry(DATA_X, 3, 2)}
    ensures Q3.ackHistory == map[0 := map[2 := 2], 1 := map[2 := 3]]
    ensures Q3.delivered == [] && !Q3.exited && Q3.id == 2
  {
  }

  lemma LearnXAt2()
    ensures NodeNext(HOSTS, Q3, OnSeq(FINAL_X), Q4, {})
  {
    hide NodeNext, Drains, Q3;
    FactsQ3();
    var rest := multiset{Entry(DATA_Z, 2, 2), Entry(DATA_Y, 3, 2)};
    var q := multiset{Entry(DATA_Z, 2, 2), Entry(DATA_Y, 3, 2), LAST_X};
    DrainsNothing(q, Entry(DATA_Z, 2, 2));
    Learn(HOSTS, Q3, FINAL_X, Entry(DATA_X, 3, 2), rest, q, [], q, []);
  }

  lemma FactsQ5()
    ensures Q5.queue == multiset{Entry(DATA_Z, 2, 2), LAST_X} + multiset{Entry(DATA_Y, 3, 2)}
    ensures Q5.ackHistory == map[0 := map[2 := 2], 1 := map[2 := 3, 1 := 1]]
    ensures Q5.delivered == [] && !Q5.exited && Q5.id == 2
  {
    hide Q3;
    FactsQ3();
  }

  lemma DecideY()
    ensures NodeNext(HOSTS, Q5, OnAck(AckOf(DATA_Y, 2, 3)), Q6, Others(HOSTS, 2, SeqPayload(FINAL_Y)))
  {
    hide NodeNext, Others, Drains, Q5, Deciding;
    FactsQ5();
    var rest := multiset{Entry(DATA_Z, 2, 2), LAST_X};
    var q := multiset{Entry(DATA_Z, 2, 2), LAST_Y, LAST_X};
    DrainsNothing(q, Entry(DATA_Z, 2, 2));
    Decide(HOSTS, Q5, AckOf(DATA_Y, 2, 3), FINAL_Y, Entry(DATA_Y, 3, 2), rest, q, [], q, []);
  }

  lemma FactsQ6()
    ensures Q6.queue == multiset{Entry(DATA_Z, 2, 2), LAST_Y, LAST_X} && Row(Q6, 0) == map[2 := 2]
    ensures Q6.delivered == [] && !Q6.exited && Q6.id == 2
  {
    hide Q5;
    FactsQ5();
  }

  lemma FactsQ7()
    ensures Q7.queue == multiset{LAST_Y, LAST_X} + multiset{Entry(DATA_Z, 2, 2)}
    ensures 0 in Q7.ackHistory && Q7.ackHistory[0] == map[2 := 2, 3 := 1]
    ensures Q7.delivered == [] && !Q7.exited && Q7.id == 2
  {
    hide Q6;
    FactsQ6();
  }

  lemma DecideZ()
    ensures NodeNext(HOSTS, Q7, OnAck(AckOf(DATA_Z, 4, 1)), Q8, Others(HOSTS, 2, SeqPayload(FINAL_Z)))
  {
    hide NodeNext, Others, Drains, Q7, Deciding;
    FactsQ7();
    var rest, out := multiset{LAST_Y, LAST_X}, [LAST_X, LAST_Y, LAST_Z];
    DrainsThree(LAST_X, LAST_Y, LAST_Z);
    Decide(HOSTS, Q7, AckOf(DATA_Z, 4, 1), FINAL_Z, Entry(DATA_Z, 2, 2), rest, multiset{LAST_X, LAST_Y, LAST_Z},
           out, multiset{}, out);
  }

  // ---------- process 3 ----------

  const R1 := TakingIn(InitialNode(3), DATA_Z)
  const R2 := TakingIn(R1, DATA_Y)
  const R3 := TakingIn(R2, DATA_X)
  const R4 := Learning(R3, FINAL_Z, multiset{Entry(DATA_Y, 2, 3), Entry(DATA_X, 3, 3), LAST_Z}, [])
  const R5 := Learning(R4, FINAL_Y, multiset{Entry(DATA_X, 3, 3), LAST_Z}, [LAST_Y])
  const R6 := Learning(R5, FINAL_X, multiset{}, [LAST_Y, LAST_X, LAST_Z])

  lemma FactsR3()
    ensures R3.queue == multiset{Entry(DATA_Y, 2, 3), Entry(DATA_X, 3, 3)} + multiset{Entry(DATA_Z, 1, 3)}
    ensures R3.delivered == [] && !R3.exited && R3.id == 3
  {
  }

  lemma LearnZAt3()
    ensures NodeNext(HOSTS, R3, OnSeq(FINAL_Z), R4, {})
  {
    hide NodeNext, Drains, R3;
    FactsR3();
    var rest := multiset{Entry(DATA_Y, 2, 3), Entry(DATA_X, 3, 3)};
    var q := multiset{Entry(DATA_Y, 2, 3), Entry(DATA_X, 3, 3), LAST_Z};
    DrainsNothing(q, Entry(DATA_Y, 2, 3));
    Learn(HOSTS, R3, FINAL_Z, Entry(DATA_Z, 1, 3), rest, q, [], q, []);
  }

  lemma LearnYAt3()
    ensures NodeNext(HOSTS, R4, OnSeq(FINAL_Y), R5, {})
  {
    hide NodeNext, Drains, R3;
    FactsR3();
    var rest := multiset{Entry(DATA_X, 3, 3), LAST_Z};
    DrainsOne(LAST_Y, rest);
    Learn(HOSTS, R4, FINAL_Y, Entry(DATA_Y, 2, 3), rest, rest + multiset{LAST_Y}, [LAST_Y], rest, [LAST_Y]);
  }

  lemma LearnXAt3()
    ensures NodeNext(HOSTS, R5, OnSeq(FINAL_X), R6, {})
  {
    hide NodeNext, Drains, R3;
    FactsR3();
    var q1 := multiset{} + multiset{LAST_X, LAST_Z};
    DrainsTwo(LAST_X, LAST_Z, multiset{});
    Learn(HOSTS, R5, FINAL_X, Entry(DATA_X, 3, 3), multiset{LAST_Z}, q1, [LAST_X, LAST_Z], multiset{},
          [LAST_Y, LAST_X, LAST_Z]);
  }

  // ---------- the run ----------

  lemma SendZ()
    ensures NodeNext(HOSTS, InitialNode(2), Multicast(20), Q1, Others(HOSTS, 2, DataPayload(DATA_Z)))
  {
    hide NodeNext, Others;
    CanMulticast(HOSTS, InitialNode(2), 20);
  }

  lemma SendY()
    ensures NodeNext(HOSTS, Q1, Multicast(30), Q2, Others(HOSTS, 2, DataPayload(DATA_Y)))
  {
    hide NodeNext, Others;
    CanMulticast(HOSTS, Q1, 30);
  }

  lemma TakeYAt1()
    ensures NodeNext(HOSTS, InitialNode(1), OnData(DATA_Y), P1, To(DATA_Y.sender, AckPayload(AckOf(DATA_Y, 1, 1))))
  {
    hide NodeNext;
    CanTakeIn(HOSTS, InitialNode(1), DATA_Y);
  }

  lemma SendX()
    ensures NodeNext(HOSTS, P1, Multicast(10), P2, Others(HOSTS, 1, DataPayload(DATA_X)))
  {
    hide NodeNext, Others;
    CanMulticast(HOSTS, P1, 10);
  }

  lemma TakeZAt3()
    ensures NodeNext(HOSTS, InitialNode(3), OnData(DATA_Z), R1, To(DATA_Z.sender, AckPayload(AckOf(DATA_Z, 1, 3))))
  {
    hide NodeNext;
    CanTakeIn(HOSTS, InitialNode(3), DATA_Z);
  }

  lemma TakeYAt3()
    ensures NodeNext(HOSTS, R1, OnData(DATA_Y), R2, To(DATA_Y.sender, AckPayload(AckOf(DATA_Y, 2, 3))))
  {
    hide NodeNext;
    CanTakeIn(HOSTS, R1, DATA_Y);
  }

  lemma TakeXAt3()
    ensures NodeNext(HOSTS, R2, OnData(DATA_X), R3, To(DATA_X.sender, AckPayload(AckOf(DATA_X, 3, 3))))
  {
    hide NodeNext;
    CanTakeIn(HOSTS, R2, DATA_X);
  }

  lemma TakeXAt2()
    ensures NodeNext(HOSTS, Q2, OnData(DATA_X), Q3, To(DATA_X.sender, AckPayload(AckOf(DATA_X, 3, 2))))
  {
    hide NodeNext;
    CanTakeIn(HOSTS, Q2, DATA_X);
  }

  lemma CollectX()
    ensures NodeNext(HOSTS, P2, OnAck(AckOf(DATA_X, 3, 3)), P3, {})
  {
    hide NodeNext;
    CanCollect(HOSTS, P2, AckOf(DATA_X, 3, 3));
  }

  lemma TakeZAt1()
    ensures NodeNext(HOSTS, P3, OnData(DATA_Z), P4, To(DATA_Z.sender, AckPayload(AckOf(DATA_Z, 4, 1))))
  {
    hide NodeNext;
    CanTakeIn(HOSTS, P3, DATA_Z);
  }

  lemma CollectY()
    ensures NodeNext(HOSTS, Q4, OnAck(AckOf(DATA_Y, 1, 1)), Q5, {})
  {
    hide NodeNext, Q3;
    FactsQ3();
    CanCollect(HOSTS, Q4, AckOf(DATA_Y, 1, 1));
  }

  lemma TwoOfThree()
    ensures |WithAck(map[2 := 2], 3, 1)| != |HOSTS|
  {
    assert WithAck(map[2 := 2], 3, 1) == map[2 := 2, 3 := 1];
    assert |map[2 := 2, 3 := 1].Keys| == 2;
  }

  lemma CollectZ()
    ensures NodeNext(HOSTS, Q6, OnAck(AckOf(DATA_Z, 1, 3)), Q7, {})
  {
    hide NodeNext, Q6, Row, WithAck, Collecting;
    FactsQ6();
    TwoOfThree();
    CanCollect(HOSTS, Q6, AckOf(DATA_Z, 1, 3));
  }

  function Trio(a: NodeState, b: NodeState, c: NodeState): Nodes {
    map[1 := a, 2 := b, 3 := c]
  }

  lemma TrioKeys(a: NodeState, b: NodeState, c: NodeState)
    ensures Trio(a, b, c).Keys == HOSTS && |HOSTS| == 3
    ensures Trio(a, b, c)[1] == a && Trio(a, b, c)[2] == b && Trio(a, b, c)[3] == c
  {
  }

  lemma TrioWith1(a: NodeState, b: NodeState, c: NodeState, a': NodeState)
    ensures Trio(a, b, c)[1 := a'] == Trio(a', b, c)
  {
  }

  lemma TrioWith2(a: NodeState, b: NodeState, c: NodeState, b': NodeState)
    ensures Trio(a, b, c)[2 := b'] == Trio(a, b', c)
  {
  }

  lemma TrioWith3(a: NodeState, b: NodeState, c: NodeState, c': NodeState)
    ensures Trio(a, b, c)[3 := c'] == Trio(a, b, c')
  {
  }

  lemma Move1(w: World, a: NodeState, b: NodeState, c: NodeState, e: Event, a': NodeState, sent: set<Packet>)
    returns (w': World)
    requires At(w, Trio(a, b, c), HOSTS) && Enabled(w, 1, e) && NodeNext(HOSTS, a, e, a', sent)
    ensures At(w', Trio(a', b, c), HOSTS) && w'.net == w.net + sent
  {
    hide NodeNext, Enabled, At, Trio;
    TrioKeys(a, b, c);
    w' := Move(w, Trio(a, b, c), HOSTS, 1, e, a', sent);
    TrioWith1(a, b, c, a');
  }

  lemma Move2(w: World, a: NodeState, b: NodeState, c: NodeState, e: Event, b': NodeState, sent: set<Packet>)
    returns (w': World)
    requires At(w, Trio(a, b, c), HOSTS) && Enabled(w, 2, e) && NodeNext(HOSTS, b, e, b', sent)
    ensures At(w', Trio(a, b', c), HOSTS) && w'.net == w.net + sent
  {
    hide NodeNext, Enabled, At, Trio;
    TrioKeys(a, b, c);
    w' := Move(w, Trio(a, b, c), HOSTS, 2, e, b', sent);
    TrioWith2(a, b, c, b');
  }

  lemma Move3(w: World, a: NodeState, b: NodeState, c: NodeState, e: Event, c': NodeState, sent: set<Packet>)
    returns (w': World)
    requires At(w, Trio(a, b, c), HOSTS) && Enabled(w, 3, e) && NodeNext(HOSTS, c, e, c', sent)
    ensures At(w', Trio(a, b, c'), HOSTS) && w'.net == w.net + sent
  {
    hide NodeNext, Enabled, At, Trio;
    TrioKeys(a, b, c);
    w' := Move(w, Trio(a, b, c), HOSTS, 3, e, c', sent);
    TrioWith3(a, b, c, c');
  }

  /** Everybody has taken in everything but (2,0) at process 1. */
  lemma Sent() returns (w: World)
    ensures At(w, Trio(P2, Q3, R3), HOSTS)
    ensures To(1, DataPayload(DATA_Z)) + To(1, AckPayload(AckOf(DATA_X, 3, 3))) + To(1, AckPayload(AckOf(DATA_X, 3, 2)))
            + To(2, AckPayload(AckOf(DATA_Y, 1, 1))) + To(2, AckPayload(AckOf(DATA_Y, 2, 3)))
            + To(2, AckPayload(AckOf(DATA_Z, 1, 3))) <= w.net
  {
    hide NodeNext, At, Trio, Enabled, Others, P1, P2, Q1, Q2, Q3, R1, R2, R3;
    var i1, i2, i3 := InitialNode(1), InitialNode(2), InitialNode(3);
    w := Start(Trio(i1, i2, i3), HOSTS) by { TrioKeys(i1, i2, i3); }
    w := Move2(w, i1, i2, i3, Multicast(20), Q1, Others(HOSTS, 2, DataPayload(DATA_Z))) by {
      AnyTime(w, 2, 20);
      SendZ();
    }
    Reaches(HOSTS, 2, 1, DataPayload(DATA_Z));
    Reaches(HOSTS, 2, 3, DataPayload(DATA_Z));
    w := Move2(w, i1, Q1, i3, Multicast(30), Q2, Others(HOSTS, 2, DataPayload(DATA_Y))) by {
      AnyTime(w, 2, 30);
      SendY();
    }
    Reaches(HOSTS, 2, 1, DataPayload(DATA_Y));
    Reaches(HOSTS, 2, 3, DataPayload(DATA_Y));
    w := Move1(w, i1, Q2, i3, OnData(DATA_Y), P1, To(2, AckPayload(AckOf(DATA_Y, 1, 1)))) by {
      DataArrives(w, 1, DATA_Y);
      TakeYAt1();
    }
    w := Move1(w, P1, Q2, i3, Multicast(10), P2, Others(HOSTS, 1, DataPayload(DATA_X))) by {
      AnyTime(w, 1, 10);
      SendX();
    }
    Reaches(HOSTS, 1, 2, DataPayload(DATA_X));
    Reaches(HOSTS, 1, 3, DataPayload(DATA_X));
    w := Move3(w, P2, Q2, i3, OnData(DATA_Z), R1, To(2, AckPayload(AckOf(DATA_Z, 1, 3)))) by {
      DataArrives(w, 3, DATA_Z);
      TakeZAt3();
    }
    w := Move3(w, P2, Q2, R1, OnData(DATA_Y), R2, To(2, AckPayload(AckOf(DATA_Y, 2, 3)))) by {
      DataArrives(w, 3, DATA_Y);
      TakeYAt3();
    }
    w := Move3(w, P2, Q2, R2, OnData(DATA_X), R3, To(1, AckPayload(AckOf(DATA_X, 3, 3)))) by {
      DataArrives(w, 3, DATA_X);
      TakeXAt3();
    }
    w := Move2(w, P2, Q2, R3, OnData(DATA_X), Q3, To(1, AckPayload(AckOf(DATA_X, 3, 2)))) by {
      DataArrives(w, 2, DATA_X);
      TakeXAt2();
    }
  }

  lemma DecidedX() returns (w: World)
    ensures At(w, Trio(P5, Q4, R3), HOSTS)
    ensures To(2, AckPayload(AckOf(DATA_Y, 1, 1))) + To(2, AckPayload(AckOf(DATA_Y, 2, 3)))
            + To(2, AckPayload(AckOf(DATA_Z, 1, 3))) + To(2, AckPayload(AckOf(DATA_Z, 4, 1)))
            + To(3, SeqPayload(FINAL_X)) <= w.net
  {
    hide NodeNext, At, Trio, Enabled, Others, P2, P3, P4, P5, Q3, Q4, R3;
    w := Sent();
    w := Move1(w, P2, Q3, R3, OnAck(AckOf(DATA_X, 3, 3)), P3, {}) by {
      AckArrives(w, 1, AckOf(DATA_X, 3, 3));
      CollectX();
    }
    w := Move1(w, P3, Q3, R3, OnData(DATA_Z), P4, To(2, AckPayload(AckOf(DATA_Z, 4, 1)))) by {
      DataArrives(w, 1, DATA_Z);
      TakeZAt1();
    }
    w := Move1(w, P4, Q3, R3, OnAck(AckOf(DATA_X, 3, 2)), P5, Others(HOSTS, 1, SeqPayload(FINAL_X))) by {
      AckArrives(w, 1, AckOf(DATA_X, 3, 2));
      DecideX();
    }
    Reaches(HOSTS, 1, 2, SeqPayload(FINAL_X));
    Reaches(HOSTS, 1, 3, SeqPayload(FINAL_X));
    w := Move2(w, P5, Q3, R3, OnSeq(FINAL_X), Q4, {}) by {
      SeqArrives(w, 2, FINAL_X);
      LearnXAt2();
    }
  }

  lemma DecidedY() returns (w: World)
    ensures At(w, Trio(P5, Q6, R3), HOSTS)
    ensures To(2, AckPayload(AckOf(DATA_Z, 1, 3))) + To(2, AckPayload(AckOf(DATA_Z, 4, 1)))
            + To(3, SeqPayload(FINAL_X)) + To(1, SeqPayload(FINAL_Y)) + To(3, SeqPayload(FINAL_Y)) <= w.net
  {
    hide NodeNext, At, Trio, Enabled, Others, P5, Q4, Q5, Q6, R3;
    w := DecidedX();
    w := Move2(w, P5, Q4, R3, OnAck(AckOf(DATA_Y, 1, 1)), Q5, {}) by {
      AckArrives(w, 2, AckOf(DATA_Y, 1, 1));
      CollectY();
    }
    w := Move2(w, P5, Q5, R3, OnAck(AckOf(DATA_Y, 2, 3)), Q6, Others(HOSTS, 2, SeqPayload(FINAL_Y))) by {
      AckArrives(w, 2, AckOf(DATA_Y, 2, 3));
      DecideY();
    }
    Reaches(HOSTS, 2, 1, SeqPayload(FINAL_Y));
    Reaches(HOSTS, 2, 3, SeqPayload(FINAL_Y));
  }

  /** The senders have decided, and process 2 has delivered everything. */
  lemma AllDecided() returns (w: World)
    ensures At(w, Trio(P5, Q8, R3), HOSTS)
    ensures To(1, SeqPayload(FINAL_Y)) + To(1, SeqPayload(FINAL_Z)) + To(3, SeqPayload(FINAL_X))
            + To(3, SeqPayload(FINAL_Y)) + To(3, SeqPayload(FINAL_Z)) <= w.net
  {
    hide NodeNext, At, Trio, Enabled, Others, P5, Q6, Q7, Q8, R3;
    w := DecidedY();
    w := Move2(w, P5, Q6, R3, OnAck(AckOf(DATA_Z, 1, 3)), Q7, {}) by {
      AckArrives(w, 2, AckOf(DATA_Z, 1, 3));
      CollectZ();
    }
    w := Move2(w, P5, Q7, R3, OnAck(AckOf(DATA_Z, 4, 1)), Q8, Others(HOSTS, 2, SeqPayload(FINAL_Z))) by {
      AckArrives(w, 2, AckOf(DATA_Z, 4, 1));
      DecideZ();
    }
    Reaches(HOSTS, 2, 1, SeqPayload(FINAL_Z));
    Reaches(HOSTS, 2, 3, SeqPayload(FINAL_Z));
  }

  lemma Learnt3() returns (w: World)
    ensures At(w, Trio(P5, Q8, R6), HOSTS)
    ensures To(1, SeqPayload(FINAL_Y)) + To(1, SeqPayload(FINAL_Z)) <= w.net
  {
    hide NodeNext, At, Trio, Enabled, Others, P5, Q8, R3, R4, R5, R6;
    w := AllDecided();
    w := Move3(w, P5, Q8, R3, OnSeq(FINAL_Z), R4, {}) by {
      SeqArrives(w, 3, FINAL_Z);
      LearnZAt3();
    }
    w := Move3(w, P5, Q8, R4, OnSeq(FINAL_Y), R5, {}) by {
      SeqArrives(w, 3, FINAL_Y);
      LearnYAt3();
    }
    w := Move3(w, P5, Q8, R5, OnSeq(FINAL_X), R6, {}) by {
      SeqArrives(w, 3, FINAL_X);
      LearnXAt3();
    }
  }

  lemma Finished() returns (w: World)
    ensures At(w, Trio(P7, Q8, R6), HOSTS)
  {
    hide NodeNext, At, Trio, Enabled, Others, P5, P6, P7, Q8, R6;
    w := Learnt3();
    w := Move1(w, P5, Q8, R6, OnSeq(FINAL_Y), P6, {}) by {
      SeqArrives(w, 1, FINAL_Y);
      LearnYAt1();
    }
    w := Move1(w, P6, Q8, R6, OnSeq(FINAL_Z), P7, {}) by {
      SeqArrives(w, 1, FINAL_Z);
      LearnZAt1();
    }
  }

  // ---------- its outcome ----------

  /** What the three final states have in common. */
  ghost predicate Settled(s: NodeState, out: seq<QueuedMessage>) {
    && s.seqHistory == {FINAL_X, FINAL_Y, FINAL_Z} && s.delivered == out
    && forall m :: m in s.accepted ==> s.accepted[m].deliveredBefore == 0
  }

  lemma Settled1()
    ensures Settled(P7, [LAST_X, LAST_Y, LAST_Z]) && forall k :: k in P7.dataHistory ==> IsMulticast(MsgKey(1, k))
  {
  }

  lemma HistoryQ3()
    ensures Q3.seqHistory == {} && Q3.dataHistory == map[0 := 20, 1 := 30]
    ensures forall m :: m in Q3.accepted ==> Q3.accepted[m].deliveredBefore == 0
  {
  }

  lemma HistoryQ6()
    ensures Q6.seqHistory == {FINAL_X, FINAL_Y} && Q6.dataHistory == map[0 := 20, 1 := 30]
    ensures forall m :: m in Q6.accepted ==> Q6.accepted[m].deliveredBefore == 0
  {
    hide Q3, FINAL_X, FINAL_Y, DATA_X, DATA_Y, DATA_Z;
    HistoryQ3();
  }

  lemma Settled2()
    ensures Settled(Q8, [LAST_X, LAST_Y, LAST_Z]) && forall k :: k in Q8.dataHistory ==> IsMulticast(MsgKey(2, k))
  {
    hide Q6, FINAL_X, FINAL_Y, FINAL_Z, LAST_X, LAST_Y, LAST_Z;
    HistoryQ6();
  }

  lemma Settled3()
    ensures Settled(R6, [LAST_Y, LAST_X, LAST_Z]) && R6.id == 3
    ensures forall k :: k in R6.dataHistory ==> IsMulticast(MsgKey(3, k))
    ensures FINAL_X.Key() in R6.accepted && R6.accepted[FINAL_X.Key()].proposal == 3
    ensures FINAL_X.Key() in R6.learnt && R6.learnt[FINAL_X.Key()] == 1
  {
  }

  lemma DecisionsAreDistinct(w: World)
    requires forall p :: p in w.nodes ==> exists out :: Settled(w.nodes[p], out)
    ensures DistinctPairs(w)
  {
    assert forall d :: Decided(w, d) ==> d == FINAL_X || d == FINAL_Y || d == FINAL_Z;
  }

  lemma NobodyIsLate(w: World)
    requires forall p :: p in w.nodes ==> exists out :: Settled(w.nodes[p], out)
    ensures NobodyLate(w)
  {
    hide Decided, Smaller;
  }

  predicate IsMulticast(m: MsgKey) {
    m == MsgKey(1, 0) || m == MsgKey(2, 0) || m == MsgKey(2, 1)
  }

  lemma HasAll(s: NodeState)
    requires s.delivered == [LAST_X, LAST_Y, LAST_Z] || s.delivered == [LAST_Y, LAST_X, LAST_Z]
    ensures forall m :: IsMulticast(m) ==> Has(s, m)
  {
    var x := if s.delivered[0] == LAST_X then 0 else 1;
    assert s.delivered[x].Key() == MsgKey(1, 0);
    assert s.delivered[1 - x].Key() == MsgKey(2, 1);
    assert s.delivered[2].Key() == MsgKey(2, 0);
  }

  lemma AllAreDelivered(w: World)
    requires forall p, k :: p in w.nodes && k in w.nodes[p].dataHistory ==> IsMulticast(MsgKey(p, k))
    requires forall p, m :: p in w.nodes && IsMulticast(m) ==> Has(w.nodes[p], m)
    ensures AllDelivered(w)
  {
    hide IsMulticast, Has;
    AllHave(w);
  }

  lemma Overtakes()
    ensures Overtaken(R6, FINAL_Y, FINAL_X) && Cmp(LAST_Y, LAST_X)
  {
    hide R6;
    Settled3();
    assert IsDelivery(R6, FINAL_Y, 0);
  }

  ghost predicate Complete(p: nat, s: NodeState) {
    && (exists out :: Settled(s, out))
    && (forall m :: IsMulticast(m) ==> Has(s, m))
    && (forall k :: k in s.dataHistory ==> IsMulticast(MsgKey(p, k)))
  }

  lemma IsComplete(p: nat, s: NodeState, out: seq<QueuedMessage>)
    requires Settled(s, out) && forall k :: k in s.dataHistory ==> IsMulticast(MsgKey(p, k))
    requires out == [LAST_X, LAST_Y, LAST_Z] || out == [LAST_Y, LAST_X, LAST_Z]
    ensures Complete(p, s)
  {
    hide IsMulticast, Has;
    HasAll(s);
  }

  lemma EachIsComplete()
    ensures Complete(1, P7) && Complete(2, Q8) && Complete(3, R6)
  {
    hide *;
    Settled1();
    IsComplete(1, P7, [LAST_X, LAST_Y, LAST_Z]);
    Settled2();
    IsComplete(2, Q8, [LAST_X, LAST_Y, LAST_Z]);
    Settled3();
    IsComplete(3, R6, [LAST_Y, LAST_X, LAST_Z]);
  }

  lemma Outcome(w: World)
    requires forall p :: p in w.nodes ==> Complete(p, w.nodes[p])
    ensures DistinctPairs(w) && NobodyLate(w) && AllDelivered(w)
  {
    hide Settled, Has, IsMulticast, DistinctPairs, NobodyLate, AllDelivered;
    DecisionsAreDistinct(w);
    NobodyIsLate(w);
    AllAreDelivered(w);
  }

  /** Nothing lost, nothing late, all pairs of final number and proposer distinct, everything
      delivered, and still process 3 delivers (2,1) before the smaller (1,0), unlike process 1. */
  lemma TieBreaksTwoOrders() returns (w: World)
    ensures Reachable(w) && w.nodes.Keys == {1, 2, 3}
    ensures DistinctPairs(w) && NobodyLate(w) && AllDelivered(w)
    ensures w.nodes[1].delivered == [LAST_X, LAST_Y, LAST_Z] && w.nodes[3].delivered == [LAST_Y, LAST_X, LAST_Z]
    ensures Overtaken(w.nodes[3], FINAL_Y, FINAL_X) && Cmp(LAST_Y, LAST_X)
  {
    hide *;
    w := Finished();
    TrioAt(w, P7, Q8, R6);
    EachIsComplete();
    Outcome(w);
    FinalLists();
    Overtakes();
  }

  lemma TrioAt(w: World, a: NodeState, b: NodeState, c: NodeState)
    requires At(w, Trio(a, b, c), HOSTS)
    ensures Reachable(w)
    ensures w.nodes.Keys == {1, 2, 3} && w.nodes[1] == a && w.nodes[2] == b && w.nodes[3] == c
    ensures forall p :: p in w.nodes ==> p == 1 || p == 2 || p == 3
  {
    hide Reachable;
  }

  lemma FinalLists()
    ensures P7.delivered == [LAST_X, LAST_Y, LAST_Z] && R6.delivered == [LAST_Y, LAST_X, LAST_Z]
  {
    hide P7, R6;
    Settled1();
    Settled3();
  }
}
