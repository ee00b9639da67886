/** The cut on channels that are first-in-first-out and lose nothing, as the algorithm assumes: there
    the recorded channel is, in order, what was in transit. */
module OrderedCut {
  import opened Messages
  import opened Recording
  import opened Cut

  function Order(items: seq<Item>): seq<Letter> {
    if items == [] then [] else (if items[0].Mail? then [items[0].letter] else []) + Order(items[1..])
  }

  lemma {:induction false} OrderConcat(a: seq<Item>, b: seq<Item>)
    ensures Order(a + b) == Order(a) + Order(b)
  {
    if a == [] {
      assert a + b == b;
    } else {
      OrderConcat(a[1..], b);
      Cons(a, b);
      Assoc(if a[0].Mail? then [a[0].letter] else [], Order(a[1..]), Order(b));
    }
  }

  lemma OrderOne(it: Item)
    ensures Order([it]) == if it.Mail? then [it.letter] else []
  {
    assert [it][1..] == [];
  }

  ghost predicate InOrderOk(ch: Channel, fromDone: bool, got: nat) {
    && ch.received + Order(ch.items) == ch.sent
    && (fromDone && got == 0 ==> ch.received + Order(Before(ch.items)) == ch.sentAtRecording)
    && (got > 0 ==> ch.receivedAtRecording + ch.recordedInTransit == ch.sentAtRecording)
  }

  /** The steps of the channel from `p` to `q` take its first item, once, and none is lost. */
  predicate InOrder(step: Step, p: nat, q: nat) {
    match step
    case ReceivePacket(p', q', at, stays) => p' == p && q' == q ==> at == 0 && !stays
    case ReceiveMarker(p', q', at) => p' == p && q' == q ==> at == 0
    case LosePacket(p', q', _) => p' != p || q' != q
    case _ => true
  }

  lemma SendInOrder(ch: Channel, fromDone: bool, toDone: bool, got: nat, x: Payload)
    requires InOrderOk(ch, fromDone, got) && ChannelOk(ch, fromDone, toDone, got)
    ensures InOrderOk(Sent(ch, x), fromDone, got)
  {
    var it := Mail(Letter(|ch.sent|, x));
    SentMarkers(ch, x);
    OrderConcat(ch.items, [it]);
    OrderOne(it);
    hide MarkerCount, Before, Order, Letters;
  }

  lemma MarkSentInOrder(ch: Channel, toDone: bool)
    requires InOrderOk(ch, false, 0) && Distinct(ch) && ChannelOk(ch, false, toDone, 0)
    ensures InOrderOk(MarkSent(ch), true, 0)
  {
    MarkerAppended(ch);
    OrderConcat(ch.items, [Marker]);
    OrderOne(Marker);
    NoMarkerIsBefore(ch.items);
    hide MarkerCount, Before, Order, Letters, Distinct;
    assert Order(ch.items) + [] == Order(ch.items);
  }

  lemma NoMarkerIsBefore(items: seq<Item>)
    ensures MarkerCount(items) == 0 ==> Before(items) == items
  {
    BeforeConcat(items, []);
    assert items + [] == items;
  }

  lemma FirstTaken(items: seq<Item>)
    requires items != []
    ensures Without(items, 0) == items[1..]
  {
  }

  lemma FirstOut(items: seq<Item>)
    requires items != [] && items[0].Mail?
    ensures Order(items) == [items[0].letter] + Order(items[1..])
    ensures Order(Before(items)) == [items[0].letter] + Order(Before(items[1..]))
  {
    var b := Before(items[1..]);
    assert Before(items) == [items[0]] + b;
    assert ([items[0]] + b)[0] == items[0] && ([items[0]] + b)[1..] == b;
  }

  lemma ReceiveInOrder(ch: Channel, fromDone: bool, toDone: bool, got: nat)
    requires InOrderOk(ch, fromDone, got) && ChannelOk(ch, fromDone, toDone, got)
    requires ch.items != [] && ch.items[0].Mail?
    ensures InOrderOk(Received(ch, 0, toDone && got == 0, false), fromDone, got)
  {
    hide ChannelOk, Order, Before, Without;
    var l, rest := ch.items[0].letter, ch.items[1..];
    FirstTaken(ch.items);
    FirstOut(ch.items);
    Assoc(ch.received, [l], Order(rest));
    Assoc(ch.received, [l], Order(Before(rest)));
  }

  lemma MarkerFirst(items: seq<Item>)
    requires items != [] && items[0].Marker?
    ensures Order(items) == Order(items[1..]) && Order(Before(items)) == []
  {
  }

  lemma MarkerInOrder(ch: Channel)
    requires InOrderOk(ch, true, 0) && ChannelOk(ch, true, true, 0) && ch.items != [] && ch.items[0].Marker?
    ensures InOrderOk(Lost(ch, 0), true, 1)
  {
    FirstTaken(ch.items);
    MarkerFirst(ch.items);
    hide Letters, MarkerCount, Order, Before, Without;
    assert ch.received + [] == ch.received;
  }

  // ---------- the whole system ----------

  ghost predicate InOrderAt(w: Snapshot, c: (nat, nat)) {
    c in w.channels && InOrderOk(w.channels[c], c.0 in w.recorded, Got(w, c))
  }

  lemma RecordInOrder(w: Snapshot, r: nat, c: (nat, nat))
    requires Inv(w) && InOrderAt(w, c) && r in w.hosts && r !in w.recorded
    ensures InOrderAt(Record(w, r), c)
  {
    hide Inv, InOrderOk, ChannelOk, Distinct, ItemsFrom;
    ChannelInvAt(w, c);
    assert Got(Record(w, r), c) == Got(w, c);
    if c.0 == r {
      MarkSentKeeps(w.channels[c], c.1 in w.recorded, Got(w, c));
      MarkSentInOrder(w.channels[c], c.1 in w.recorded);
    } else if c.1 == r {
      MarkReceivedInOrder(w.channels[c], c.0 in w.recorded, Got(w, c));
    }
  }

  lemma MarkReceivedInOrder(ch: Channel, fromDone: bool, got: nat)
    requires InOrderOk(ch, fromDone, got) && ChannelOk(ch, fromDone, false, got)
    ensures InOrderOk(MarkReceived(ch), fromDone, got)
  {
    hide Order, Before, MarkerCount, Letters;
  }

  lemma StepInOrder(w: Snapshot, step: Step, w': Snapshot, p: nat, q: nat)
    requires Inv(w) && Next(w, step, w') && InOrder(step, p, q) && InOrderAt(w, (p, q))
    ensures InOrderAt(w', (p, q))
  {
    hide Inv, InOrderOk, ChannelOk, Distinct, ItemsFrom, Record, TakeMarker, Sent, Received, Lost, Got;
    ChannelInvAt(w, (p, q));
    var ch, got := w.channels[(p, q)], Got(w, (p, q));
    match step
    case Send(p', q', x) =>
      SameMarkers(w, w', (p, q));
      if p' == p && q' == q { SendInOrder(ch, p in w.recorded, q in w.recorded, got, x); }
    case Initiate(r) => RecordInOrder(w, r, (p, q));
    case ReceivePacket(p', q', at, stays) =>
      SameMarkers(w, w', (p, q));
      if p' == p && q' == q {
        WaitingIsGotNone(w, p, q);
        ReceiveInOrder(ch, p in w.recorded, q in w.recorded, got);
      }
    case LosePacket(p', q', at) => SameMarkers(w, w', (p, q));
    case ReceiveMarker(p', q', at) => MarkerStep(w, p', q', at, p, q);
  }

  lemma SameMarkers(w: Snapshot, w': Snapshot, c: (nat, nat))
    requires w'.markersFrom == w.markersFrom
    ensures Got(w', c) == Got(w, c)
  {
  }

  lemma MarkerStep(w: Snapshot, p': nat, q': nat, at: nat, p: nat, q: nat)
    requires Inv(w) && HasItem(w, p', q', at, true) && InOrder(ReceiveMarker(p', q', at), p, q) && InOrderAt(w, (p, q))
    ensures InOrderAt(TakeMarker(if q' in w.recorded then w else Record(w, q'), p', q', at), (p, q))
  {
    hide Inv, InOrderOk, ChannelOk, Distinct, ItemsFrom, Record, Got, Without;
    var w1 := if q' in w.recorded then w else Record(w, q');
    ChannelInvAt(w, (p', q'));
    if q' !in w.recorded {
      RecordInv(w, q');
      RecordInOrder(w, q', (p, q));
      JustRecorded(w, p', q', at);
    }
    TakenMarkers(w1, p', q', at, (p, q));
    if p' == p && q' == q {
      MarkedChannel(w1, p, q, at);
      ChannelInvAt(w1, (p, q));
      MarkerInOrder(w1.channels[(p, q)]);
    }
  }

  lemma {:induction false} RunInOrder(run: seq<Snapshot>, steps: seq<Step>, n: nat, p: nat, q: nat)
    requires IsRun(run, steps) && n <= |steps| && p in run[0].hosts && q in run[0].hosts && p != q
    requires forall i :: 0 <= i < n ==> InOrder(steps[i], p, q)
    ensures InOrderAt(run[n], (p, q))
  {
    hide Next, Inv, InOrderAt, InOrder;
    if n == 0 {
      StartsInOrder(run[0], p, q);
    } else {
      RunInOrder(run, steps, n - 1, p, q);
      RunInv(run, steps, n - 1);
      StepInOrder(run[n - 1], steps[n - 1], run[n - 1 + 1], p, q);
    }
  }

  lemma StartsInOrder(w: Snapshot, p: nat, q: nat)
    requires Init(w) && p in w.hosts && q in w.hosts && p != q
    ensures InOrderAt(w, (p, q))
  {
    assert (p, q) in w.channels;
    assert Got(w, (p, q)) == 0;
  }

  /** No recorded state contains a packet sent after its sender had recorded. */
  lemma NothingFromTheFuture(run: seq<Snapshot>, steps: seq<Step>, n: nat, p: nat, q: nat)
    requires IsRun(run, steps) && n <= |steps| && p in run[0].hosts && q in run[0].hosts && p != q
    requires forall i :: 0 <= i < n ==> InOrder(steps[i], p, q)
    requires p in run[n].recorded && q in run[n].recorded
    ensures (p, q) in run[n].channels
    ensures run[n].channels[(p, q)].receivedAtRecording <= run[n].channels[(p, q)].sentAtRecording
  {
    hide Next, Init, Inv, InOrderOk, Got, ChannelOk;
    RunInOrder(run, steps, n, p, q);
    RunInv(run, steps, n);
    ChannelInvAt(run[n], (p, q));
    RecordedIsPrefix(run[n].channels[(p, q)], Got(run[n], (p, q)));
  }

  lemma RecordedIsPrefix(ch: Channel, got: nat)
    requires InOrderOk(ch, true, got) && ChannelOk(ch, true, true, got)
    ensures ch.receivedAtRecording <= ch.sentAtRecording
  {
    hide Letters, MarkerCount, Before, Order;
    if got == 0 {
      assert ch.receivedAtRecording + (ch.recordedInTransit + Order(Before(ch.items))) == ch.sentAtRecording;
    }
  }

  /** The recorded channel from `p` to `q` is exactly what `p` had sent before it recorded and `q`
      received after it recorded, in order. */
  lemma ChannelIsWhatWasInTransit(run: seq<Snapshot>, steps: seq<Step>, n: nat, p: nat, q: nat)
    requires IsRun(run, steps) && n <= |steps| && p in run[0].hosts && q in run[0].hosts && p != q
    requires forall i :: 0 <= i < n ==> InOrder(steps[i], p, q)
    requires q in run[n].markersFrom && p in run[n].markersFrom[q]
    ensures (p, q) in run[n].channels && p in run[n].recorded && q in run[n].recorded
    ensures var ch := run[n].channels[(p, q)];
            ch.receivedAtRecording + ch.recordedInTransit == ch.sentAtRecording
  {
    hide Next, Init, Inv, Got, Order, Before;
    RunInOrder(run, steps, n, p, q);
    RunInv(run, steps, n);
    WaitingIsGotNone(run[n], p, q);
    MarkerCame(run[n], p, q);
  }
}
