/** Every marker is collected: each process records and sends its markers once, none is counted twice,
    and receiving what is in flight always brings the collection to its end. */
module MarkerCollection {
  import opened Messages
  import opened Cut

  /** Nobody sends a second marker, and nobody counts one twice. */
  lemma MarkersOnce(w: Snapshot, p: nat, q: nat)
    requires Reachable(w) && (p, q) in w.channels
    ensures MarkerCount(w.channels[(p, q)].items) + Got(w, (p, q)) == if p in w.recorded then 1 else 0
  {
    hide Reachable, Inv, Got;
    ReachableInv(w);
    MarkerOnce(w, p, q);
  }

  lemma MarkerOnce(w: Snapshot, p: nat, q: nat)
    requires Inv(w) && (p, q) in w.channels
    ensures MarkerCount(w.channels[(p, q)].items) + Got(w, (p, q)) == if p in w.recorded then 1 else 0
  {
    hide Inv, Got, Letters, Before, Distinct;
    ChannelInvAt(w, (p, q));
  }

  /** Every process has recorded and holds one marker from each other process, and no other. */
  ghost predicate Complete(w: Snapshot) {
    && w.recorded == w.hosts && w.markersFrom.Keys == w.hosts
    && (forall q, p :: q in w.hosts ==> (p in w.markersFrom[q] <==> p in w.hosts && p != q))
    && (forall q, p :: q in w.hosts && p in w.markersFrom[q] ==> multiset(w.markersFrom[q])[p] == 1)
  }

  /** Once somebody has initiated and no marker is in flight, the collection is complete. */
  lemma AllMarkersCollected(w: Snapshot)
    requires Reachable(w) && w.recorded != {}
    requires forall c :: c in w.channels ==> MarkerCount(w.channels[c].items) == 0
    ensures Complete(w)
  {
    hide Reachable, Inv, MarkerCount, Complete;
    ReachableInv(w);
    forall p, q | p in w.recorded && q in w.hosts && p != q
      ensures (p, q) in w.channels && Got(w, (p, q)) == 1 && q in w.recorded
    {
      assert (p, q) in w.channels by { ChannelBetween(w, p, q); }
      MarkerOnce(w, p, q);
      MarkerCame(w, p, q);
    }
    OneFromEach(w);
  }

  lemma OneFromEach(w: Snapshot)
    requires Inv(w) && w.recorded != {}
    requires forall p, q :: p in w.recorded && q in w.hosts && p != q ==>
               (p, q) in w.channels && Got(w, (p, q)) == 1 && q in w.recorded
    ensures Complete(w)
  {
    hide ChannelInv;
    var p0 :| p0 in w.recorded;
    forall q | q in w.hosts ensures q in w.recorded {
      assert q != p0 ==> Got(w, (p0, q)) == 1;
    }
    forall q, p | q in w.hosts && p in w.hosts && p != q ensures multiset(w.markersFrom[q])[p] == 1 {
      assert Got(w, (p, q)) == 1;
    }
    forall q, p | q in w.hosts && p in w.markersFrom[q] ensures p in w.hosts && p != q {
      var c := (p, q);
      assert c in w.channels;
    }
  }

  lemma ChannelBetween(w: Snapshot, p: nat, q: nat)
    requires Inv(w) && p in w.recorded && q in w.hosts && p != q
    ensures (p, q) in w.channels
  {
    hide ChannelInv;
    var c := (p, q);
    assert c.0 in w.hosts && c.1 in w.hosts;
  }

  // ---------- the collection comes to an end ----------

  /** The channels whose marker has not been collected yet. */
  ghost function Outstanding(w: Snapshot): set<(nat, nat)> {
    set c | c in w.channels && Got(w, c) == 0
  }

  /** No step adds to the markers outstanding, and receiving one takes it off. */
  lemma CollectingLowersOutstanding(w: Snapshot, step: Step, w': Snapshot)
    requires Inv(w) && Next(w, step, w')
    ensures Outstanding(w') <= Outstanding(w)
    ensures step.ReceiveMarker? ==> Outstanding(w') == Outstanding(w) - {(step.p, step.q)}
                                    && (step.p, step.q) in Outstanding(w)
  {
    hide Inv, ChannelInv;
    if step.ReceiveMarker? {
      MarkerTakenOff(w, step.p, step.q, step.at, w');
    } else {
      OthersKeepMarkers(w, step, w');
    }
  }

  lemma MarkerTakenOff(w: Snapshot, p: nat, q: nat, at: nat, w': Snapshot)
    requires Inv(w) && Next(w, ReceiveMarker(p, q, at), w')
    ensures Outstanding(w') == Outstanding(w) - {(p, q)} && (p, q) in Outstanding(w)
  {
    hide Inv, Without, Record, Got;
    var w1 := if q in w.recorded then w else Record(w, q);
    MarkerIsNew(w, p, q, at);
    ChannelInvAt(w, (p, q));
    JustRecorded(w, p, q, at);
    assert w'.channels.Keys == w.channels.Keys;
    forall c | c in w.channels ensures Got(w', c) == if c == (p, q) then Got(w, c) + 1 else Got(w, c) {
      RecordKeepsGot(w, q, c);
      TakenMarkers(w1, p, q, at, c);
    }
  }

  lemma RecordKeepsGot(w: Snapshot, p: nat, c: (nat, nat))
    ensures Got(Record(w, p), c) == Got(w, c)
  {
  }

  lemma MarkerIsNew(w: Snapshot, p: nat, q: nat, at: nat)
    requires Inv(w) && HasItem(w, p, q, at, true)
    ensures Got(w, (p, q)) == 0
  {
    hide Inv, Got;
    MarkerOnce(w, p, q);
    CountWithout(w.channels[(p, q)].items, at);
  }

  lemma OthersKeepMarkers(w: Snapshot, step: Step, w': Snapshot)
    requires Next(w, step, w') && !step.ReceiveMarker?
    ensures Outstanding(w') == Outstanding(w)
  {
    hide Without;
    assert w'.channels.Keys == w.channels.Keys && w'.markersFrom == w.markersFrom;
  }

  /** The first item of a channel is received and leaves it. */
  predicate ReceivesFirst(step: Step) {
    match step
    case ReceivePacket(_, _, at, stays) => at == 0 && !stays
    case ReceiveMarker(_, _, at) => at == 0
    case _ => false
  }

  ghost predicate ReceivingRun(run: seq<Snapshot>) {
    && run != []
    && forall i :: 0 <= i < |run| - 1 ==> ReceivingStep(run[i], run[i + 1])
  }

  ghost predicate ReceivingStep(w: Snapshot, w': Snapshot) {
    exists step :: ReceivesFirst(step) && Next(w, step, w')
  }

  function Size(w: Snapshot, c: (nat, nat)): nat {
    if c in w.channels then |w.channels[c].items| else 0
  }

  /** Receiving the first item of the channel `c`. */
  lemma ReceiveFirst(w: Snapshot, c: (nat, nat)) returns (w': Snapshot)
    requires Inv(w) && c in w.channels && w.channels[c].items != []
    ensures Inv(w') && ReceivingStep(w, w') && w'.recorded >= w.recorded && c in w'.channels
    ensures Outstanding(w') <= Outstanding(w)
    ensures w.channels[c].items[0].Marker? ==> |Outstanding(w')| < |Outstanding(w)|
    ensures w.channels[c].items[0].Mail? ==>
              && Size(w', c) < Size(w, c) && Outstanding(w') == Outstanding(w)
              && MarkerCount(w'.channels[c].items) == MarkerCount(w.channels[c].items)
  {
    hide Inv, Outstanding, Got, Record, MarkerCount;
    ChannelInvAt(w, c);
    var p, q, ch := c.0, c.1, w.channels[c];
    assert c == (p, q);
    assert q in w.markersFrom by { HostHasMarkers(w, q); }
    var step;
    if ch.items[0].Marker? {
      step := ReceiveMarker(p, q, 0);
      w' := TakeMarker(if q in w.recorded then w else Record(w, q), p, q, 0) by {
        assert q !in w.recorded ==> Record(w, q).channels[c].items == ch.items;
      }
    } else {
      step := ReceivePacket(p, q, 0, false);
      w' := w.(channels := w.channels[c := Received(ch, 0, q in w.recorded && p !in w.markersFrom[q], false)]);
    }
    assert Next(w, step, w') && ReceivesFirst(step);
    StepInv(w, step, w');
    CollectingLowersOutstanding(w, step, w');
    if ch.items[0].Marker? {
      SmallerSet(Outstanding(w'), Outstanding(w), c);
    } else {
      CountWithout(ch.items, 0);
      OthersKeepMarkers(w, step, w');
    }
  }

  lemma HostHasMarkers(w: Snapshot, q: nat)
    requires Inv(w) && q in w.hosts
    ensures q in w.markersFrom
  {
    hide ChannelInv;
  }

  lemma SmallerSet<T>(a: set<T>, b: set<T>, x: T)
    requires a == b - {x} && x in b
    ensures |a| < |b|
  {
  }

  /** Somebody's marker is in flight as long as one is outstanding. */
  lemma SomeMarkerInFlight(w: Snapshot) returns (c: (nat, nat))
    requires Inv(w) && w.recorded != {} && Outstanding(w) != {}
    ensures c in w.channels && MarkerCount(w.channels[c].items) > 0
  {
    hide ChannelInv, MarkerCount, Got;
    var p :| p in w.recorded;
    if forall r :: r in w.hosts && r != p ==> r in w.recorded {
      c :| c in Outstanding(w);
      assert c.0 in w.recorded && c == (c.0, c.1);
    } else {
      var r :| r in w.hosts && r != p && r !in w.recorded;
      c := (p, r);
      assert c in w.channels by { ChannelBetween(w, p, r); }
      if Got(w, c) > 0 {
        MarkerCame(w, p, r);
        assert false;
      }
    }
    MarkerOnce(w, c.0, c.1);
  }

  lemma MarkerMeansItems(items: seq<Item>)
    requires MarkerCount(items) > 0
    ensures items != []
  {
  }

  lemma {:induction false} Collect(w: Snapshot, c: (nat, nat)) returns (run: seq<Snapshot>)
    requires Inv(w) && w.recorded != {}
    requires Outstanding(w) != {} ==> c in w.channels && MarkerCount(w.channels[c].items) > 0
    ensures ReceivingRun(run) && run[0] == w && Inv(run[|run| - 1]) && Outstanding(run[|run| - 1]) == {}
    ensures run[|run| - 1].recorded != {}
    decreases |Outstanding(w)|, Size(w, c)
  {
    hide Inv, Outstanding, Got, MarkerCount, ReceivingStep;
    if Outstanding(w) == {} {
      run := [w];
    } else {
      MarkerMeansItems(w.channels[c].items);
      var w' := ReceiveFirst(w, c);
      var c' := c;
      if w.channels[c].items[0].Marker? && Outstanding(w') != {} { c' := SomeMarkerInFlight(w'); }
      var rest := Collect(w', c');
      run := [w] + rest;
      forall i | 0 <= i < |run| - 1 ensures ReceivingStep(run[i], run[i + 1]) {
        if i > 0 { assert run[i] == rest[i - 1] && run[i + 1] == rest[i]; }
      }
    }
  }

  /** From every state that can be reached after somebody has initiated, receiving what is in flight,
      first come first served on each channel, makes the collection complete after finitely many steps. */
  lemma CollectionEnds(w: Snapshot) returns (run: seq<Snapshot>)
    requires Reachable(w) && w.recorded != {}
    ensures ReceivingRun(run) && run[0] == w && Complete(run[|run| - 1])
  {
    hide Reachable, Inv, Outstanding, MarkerCount, Complete, ReceivingRun;
    ReachableInv(w);
    var c := (0, 0);
    if Outstanding(w) != {} { c := SomeMarkerInFlight(w); }
    run := Collect(w, c);
    NoneOutstanding(run[|run| - 1]) by { RunHasStates(run); }
  }

  lemma RunHasStates(run: seq<Snapshot>)
    requires ReceivingRun(run)
    ensures run != []
  {
  }

  lemma NoneOutstanding(w: Snapshot)
    requires Inv(w) && w.recorded != {} && Outstanding(w) == {}
    ensures Complete(w)
  {
    hide Inv, MarkerCount, Complete;
    forall p, q | p in w.recorded && q in w.hosts && p != q
      ensures (p, q) in w.channels && Got(w, (p, q)) == 1 && q in w.recorded
    {
      assert (p, q) in w.channels by { ChannelBetween(w, p, q); }
      assert (p, q) !in Outstanding(w);
      MarkerOnce(w, p, q);
      MarkerCame(w, p, q);
    }
    OneFromEach(w);
  }
}
