/** Exactly when the recorded states form a consistent cut and the recorded channels hold what was in
    transit across it, for runs in which packets are lost and overtake each other and the markers. */
module ConsistentCut {
  import opened Messages
  import opened Recording
  import opened Cut

  // ---------- what was recorded, and what slipped ----------

  ghost predicate Within(a: seq<Letter>, b: seq<Letter>) {
    forall l :: l in a ==> l in b
  }

  /** What the receiving end has recorded as received, or will, if it records now. */
  function Counted(ch: Channel, toDone: bool): seq<Letter> {
    if toDone then ch.receivedAtRecording else ch.received
  }

  /** `early`: a packet passed the marker before the receiving end recorded. */
  ghost predicate EarlyOk(ch: Channel, fromDone: bool, toDone: bool, early: bool) {
    && (Within(Counted(ch, toDone), Basis(ch, fromDone)) <==> !early)
    && (early ==> fromDone)
  }

  /** `inTransit`: a packet passed the marker while the receiving end was recording the channel. */
  ghost predicate TransitOk(ch: Channel, fromDone: bool, inTransit: bool) {
    && (Within(ch.recordedInTransit, Basis(ch, fromDone)) <==> !inTransit)
    && (inTransit ==> fromDone)
  }

  ghost predicate Once(transit: seq<Letter>, before: seq<Letter>, l: Letter) {
    multiset(transit)[l] <= if l in before then 0 else 1
  }

  /** `again`: a packet that had already come came again while the channel was recorded. */
  ghost predicate AgainOk(ch: Channel, again: bool) {
    (forall l :: Once(ch.recordedInTransit, ch.receivedAtRecording, l)) <==> !again
  }

  /** Nothing that counts as sent is missing: it was received or is in flight before the marker. */
  ghost predicate NothingMissing(ch: Channel, fromDone: bool) {
    forall l :: l in Basis(ch, fromDone) ==> l in ch.received || l in Letters(Before(ch.items))
  }

  ghost predicate AllRecorded(ch: Channel) {
    forall l :: l in ch.sentAtRecording ==> l in ch.receivedAtRecording || l in ch.recordedInTransit
  }

  /** `astray`: a packet that was sent before the marker got lost before it came at all; `skipped`: the
      marker passed one. */
  ghost predicate CompleteOk(ch: Channel, fromDone: bool, got: nat, astray: bool, skipped: bool) {
    if got == 0 then !skipped && (NothingMissing(ch, fromDone) <==> !astray)
    else AllRecorded(ch) <==> !astray && !skipped
  }

  lemma WithinMore(a: seq<Letter>, l: Letter, b: seq<Letter>)
    ensures Within(a + [l], b) <==> Within(a, b) && l in b
  {
    assert forall k :: k in a + [l] <==> k in a || k == l;
  }

  lemma WithinLarger(a: seq<Letter>, b: seq<Letter>, l: Letter)
    requires Within(a, b)
    ensures Within(a, b + [l])
  {
  }

  lemma SendSlips(ch: Channel, fromDone: bool, toDone: bool, got: nat, x: Payload,
                  early: bool, inTransit: bool, astray: bool, skipped: bool)
    requires Distinct(ch) && ChannelOk(ch, fromDone, toDone, got)
    requires EarlyOk(ch, fromDone, toDone, early) && TransitOk(ch, fromDone, inTransit)
    requires CompleteOk(ch, fromDone, got, astray, skipped)
    ensures EarlyOk(Sent(ch, x), fromDone, toDone, early) && TransitOk(Sent(ch, x), fromDone, inTransit)
    ensures CompleteOk(Sent(ch, x), fromDone, got, astray, skipped)
  {
    var l := Letter(|ch.sent|, x);
    SentMarkers(ch, x);
    LettersAppend(Before(ch.items), Mail(l));
    BeforeLetters(ch.items);
    hide MarkerCount, Before, Letters, Within;
    if !fromDone {
      WithinLarger(Counted(ch, toDone), ch.sent, l);
      WithinLarger(ch.recordedInTransit, ch.sent, l);
    }
    if got == 0 { SendMisses(ch, fromDone, toDone, x); }
  }

  lemma SendMisses(ch: Channel, fromDone: bool, toDone: bool, x: Payload)
    requires Distinct(ch) && ChannelOk(ch, fromDone, toDone, 0)
    ensures NothingMissing(Sent(ch, x), fromDone) <==> NothingMissing(ch, fromDone)
  {
    var l := Letter(|ch.sent|, x);
    SentMarkers(ch, x);
    LettersAppend(Before(ch.items), Mail(l));
    BeforeLetters(ch.items);
    hide MarkerCount, Before, Letters;
    var ch' := Sent(ch, x);
    if NothingMissing(ch', fromDone) {
      forall k | k in Basis(ch, fromDone) ensures k in ch.received || k in Letters(Before(ch.items)) {
        assert k in Basis(ch', fromDone) && k != l;
      }
    }
  }

  lemma MarkSentSlips(ch: Channel, toDone: bool, got: nat, early: bool, inTransit: bool, astray: bool, skipped: bool)
    requires Distinct(ch) && ChannelOk(ch, false, toDone, got)
    requires EarlyOk(ch, false, toDone, early) && TransitOk(ch, false, inTransit)
    requires CompleteOk(ch, false, got, astray, skipped)
    ensures EarlyOk(MarkSent(ch), true, toDone, early) && TransitOk(MarkSent(ch), true, inTransit)
    ensures CompleteOk(MarkSent(ch), true, got, astray, skipped)
  {
    MarkerAppended(ch);
    hide MarkerCount, Before, Letters, Distinct, Within;
  }

  lemma MarkReceivedSlips(ch: Channel, fromDone: bool, got: nat,
                          early: bool, inTransit: bool, astray: bool, skipped: bool)
    requires ChannelOk(ch, fromDone, false, got)
    requires EarlyOk(ch, fromDone, false, early) && TransitOk(ch, fromDone, inTransit)
    requires CompleteOk(ch, fromDone, got, astray, skipped)
    ensures EarlyOk(MarkReceived(ch), fromDone, true, early) && TransitOk(MarkReceived(ch), fromDone, inTransit)
    ensures CompleteOk(MarkReceived(ch), fromDone, got, astray, skipped)
  {
    hide MarkerCount, Before, Letters, Within;
  }

  /** A packet passes the marker: one is in flight in front of it. */
  predicate Passes(ch: Channel, at: nat) {
    at < |ch.items| && MarkerCount(ch.items[..at]) > 0
  }

  /** The marker at `at` passes a packet that has not come yet. */
  ghost predicate Skips(ch: Channel, at: nat) {
    at < |ch.items| && exists l :: l in Letters(ch.items[..at]) && l !in ch.received
  }

  lemma PassingIsOutside(ch: Channel, fromDone: bool, toDone: bool, got: nat, at: nat)
    requires Distinct(ch) && ChannelOk(ch, fromDone, toDone, got) && at < |ch.items| && ch.items[at].Mail?
    ensures got == 0 ==> (ch.items[at].letter in Basis(ch, fromDone) <==> !Passes(ch, at))
    ensures Passes(ch, at) ==> fromDone && got == 0
  {
    StandsBefore(ch, at);
    CountWithout(ch.items, at);
    hide MarkerCount, Before, Letters, Without;
  }

  lemma ReceiveSlips(ch: Channel, fromDone: bool, toDone: bool, got: nat, at: nat, stays: bool,
                     early: bool, inTransit: bool)
    requires Distinct(ch) && ChannelOk(ch, fromDone, toDone, got) && at < |ch.items| && ch.items[at].Mail?
    requires EarlyOk(ch, fromDone, toDone, early) && TransitOk(ch, fromDone, inTransit)
    ensures var ch' := Received(ch, at, toDone && got == 0, stays);
            && EarlyOk(ch', fromDone, toDone, early || (!toDone && Passes(ch, at)))
            && TransitOk(ch', fromDone, inTransit || (toDone && Passes(ch, at)))
  {
    PassingIsOutside(ch, fromDone, toDone, got, at);
    hide MarkerCount, Before, Letters, Within, Without, Passes, Distinct;
    WithinMore(ch.received, ch.items[at].letter, Basis(ch, fromDone));
    WithinMore(ch.recordedInTransit, ch.items[at].letter, Basis(ch, fromDone));
  }

  /** A packet comes that has come before. */
  predicate Repeats(ch: Channel, at: nat) {
    at < |ch.items| && ch.items[at].Mail? && ch.items[at].letter in ch.received
  }

  lemma ReceiveRepeats(ch: Channel, at: nat, recording: bool, stays: bool, again: bool)
    requires at < |ch.items| && ch.items[at].Mail? && AgainOk(ch, again)
    requires recording ==> ch.receivedAtRecording + ch.recordedInTransit == ch.received
    ensures AgainOk(Received(ch, at, recording, stays), again || (recording && Repeats(ch, at)))
  {
    hide Without, Once;
    var ch' := Received(ch, at, recording, stays);
    var l := ch.items[at].letter;
    var a, a', b := ch.recordedInTransit, ch'.recordedInTransit, ch.receivedAtRecording;
    if recording {
      forall k ensures Once(a', b, k) <==> Once(a, b, k) && !(k == l && Repeats(ch, at)) {
        OneMore(a, b, l, k);
      }
      if Repeats(ch, at) { assert !Once(a', b, l); }
    }
  }

  lemma OneMore(transit: seq<Letter>, before: seq<Letter>, l: Letter, k: Letter)
    ensures Once(transit + [l], before, k) <==> Once(transit, before, k) && !(k == l && l in before + transit)
  {
    assert multiset(transit + [l]) == multiset(transit) + multiset{l};
    assert l in transit <==> multiset(transit)[l] > 0;
  }

  lemma NoneRepeated(ch: Channel, again: bool)
    requires AgainOk(ch, again) && ch.recordedInTransit == []
    ensures AgainOk(MarkReceived(ch), again)
  {
    forall before, l ensures Once([], before, l) {}
  }

  lemma WaitingIsReceived(ch: Channel, fromDone: bool, got: nat)
    requires ChannelOk(ch, fromDone, true, got) && got == 0
    ensures ch.receivedAtRecording + ch.recordedInTransit == ch.received
  {
    hide Letters, Before, MarkerCount;
  }

  lemma NothingYet(ch: Channel, fromDone: bool, got: nat)
    requires ChannelOk(ch, fromDone, false, got)
    ensures ch.recordedInTransit == []
  {
    hide Letters, Before, MarkerCount;
  }

  /** A packet in flight in front of the marker that has not come. */
  predicate StillToCome(ch: Channel, at: nat) {
    at < |ch.items| && ch.items[at].Mail? && ch.items[at].letter !in ch.received && !Passes(ch, at)
  }

  lemma ReceiveMisses(ch: Channel, fromDone: bool, toDone: bool, got: nat, at: nat, stays: bool,
                      astray: bool, skipped: bool)
    requires Distinct(ch) && ChannelOk(ch, fromDone, toDone, got) && at < |ch.items| && ch.items[at].Mail?
    requires CompleteOk(ch, fromDone, got, astray, skipped)
    ensures CompleteOk(Received(ch, at, toDone && got == 0, stays), fromDone, got, astray, skipped)
  {
    StandsBefore(ch, at);
    hide MarkerCount, Before, Letters, Without, Distinct;
    var ch' := Received(ch, at, toDone && got == 0, stays);
    if got == 0 {
      forall l | l in Basis(ch, fromDone)
        ensures l in ch'.received || l in Letters(Before(ch'.items))
                <==> l in ch.received || l in Letters(Before(ch.items))
      {
      }
    }
  }

  lemma LoseMisses(ch: Channel, fromDone: bool, toDone: bool, got: nat, at: nat, astray: bool, skipped: bool)
    requires Distinct(ch) && ChannelOk(ch, fromDone, toDone, got) && at < |ch.items| && ch.items[at].Mail?
    requires CompleteOk(ch, fromDone, got, astray, skipped)
    ensures CompleteOk(Lost(ch, at), fromDone, got, astray || (got == 0 && StillToCome(ch, at)), skipped)
  {
    StandsBefore(ch, at);
    PassingIsOutside(ch, fromDone, toDone, got, at);
    hide MarkerCount, Before, Letters, Without;
    var l := ch.items[at].letter;
    if got == 0 && !Passes(ch, at) && l !in ch.received {
      assert l in Basis(Lost(ch, at), fromDone);
    }
  }

  lemma MarkerMisses(ch: Channel, at: nat, astray: bool, skipped: bool)
    requires Distinct(ch) && ChannelOk(ch, true, true, 0) && at < |ch.items| && ch.items[at].Marker?
    requires CompleteOk(ch, true, 0, astray, skipped)
    ensures CompleteOk(Lost(ch, at), true, 1, astray, Skips(ch, at))
  {
    MarkerStandsAt(ch, at);
    hide MarkerCount, Before, Letters, Without;
    var ch' := Lost(ch, at);
    assert forall l :: l in ch.received <==> l in ch.receivedAtRecording || l in ch.recordedInTransit;
    if Skips(ch, at) {
      var l :| l in Letters(ch.items[..at]) && l !in ch.received;
      assert l in ch.sentAtRecording;
    }
  }

  lemma MarkerStandsAt(ch: Channel, at: nat)
    requires Distinct(ch) && ChannelOk(ch, true, true, 0) && at < |ch.items| && ch.items[at].Marker?
    ensures Letters(Before(ch.items)) == Letters(ch.items[..at])
    ensures Letters(ch.items[..at]) <= Letters(ch.items)
  {
    CountWithout(ch.items, at);
    BeforeWithout(ch.items, at);
    BeforeLetters(ch.items);
    hide Before, Letters, Without;
  }

  // ---------- the whole system ----------

  /** What can go wrong for the channel from `p` to `q`, seen on the step that does it. */
  datatype Slip = Early | InTransit | Again | Astray | Skipped

  /** `Early`, `InTransit`: a packet passes the marker before `q` has recorded, or after, while it
      records the channel. `Again`: a packet that has come comes again, meanwhile.
      `Astray`: a packet not behind the marker is lost before it or the marker has come. `Skipped`: the
      marker passes a packet that has not come. */
  ghost predicate Slips(w: Snapshot, step: Step, kind: Slip, p: nat, q: nat) {
    && !step.Initiate? && step.p == p && step.q == q && (p, q) in w.channels && q in w.markersFrom
    && var ch, recording := w.channels[(p, q)], q in w.recorded && p !in w.markersFrom[q];
       match kind
       case Early => step.ReceivePacket? && q !in w.recorded && Passes(ch, step.at)
       case InTransit => step.ReceivePacket? && q in w.recorded && Passes(ch, step.at)
       case Again => step.ReceivePacket? && recording && Repeats(ch, step.at)
       case Astray => step.LosePacket? && p !in w.markersFrom[q] && StillToCome(ch, step.at)
       case Skipped => step.ReceiveMarker? && Skips(ch, step.at)
  }

  ghost predicate Slipped(run: seq<Snapshot>, steps: seq<Step>, n: nat, kind: Slip, p: nat, q: nat)
    requires |run| == |steps| + 1 && n <= |steps|
  {
    exists i :: 0 <= i < n && Slips(run[i], steps[i], kind, p, q)
  }

  datatype Flags = Flags(early: bool, inTransit: bool, again: bool, astray: bool, skipped: bool)

  ghost predicate FlagsOk(ch: Channel, fromDone: bool, toDone: bool, got: nat, f: Flags) {
    && EarlyOk(ch, fromDone, toDone, f.early) && TransitOk(ch, fromDone, f.inTransit)
    && AgainOk(ch, f.again) && CompleteOk(ch, fromDone, got, f.astray, f.skipped)
  }

  ghost predicate SlipsOk(w: Snapshot, c: (nat, nat), f: Flags) {
    c in w.channels && FlagsOk(w.channels[c], c.0 in w.recorded, c.1 in w.recorded, Got(w, c), f)
  }

  ghost function After(w: Snapshot, step: Step, p: nat, q: nat, f: Flags): Flags {
    Flags(f.early || Slips(w, step, Early, p, q), f.inTransit || Slips(w, step, InTransit, p, q),
          f.again || Slips(w, step, Again, p, q), f.astray || Slips(w, step, Astray, p, q),
          f.skipped || Slips(w, step, Skipped, p, q))
  }

  lemma RecordSlips(w: Snapshot, r: nat, c: (nat, nat), f: Flags)
    requires Inv(w) && SlipsOk(w, c, f) && r in w.hosts && r !in w.recorded
    ensures SlipsOk(Record(w, r), c, f)
  {
    ChannelInvAt(w, c);
    hide Inv, Distinct, ItemsFrom, ChannelOk, EarlyOk, TransitOk, CompleteOk, Once, AgainOk;
    var ch, got := w.channels[c], Got(w, c);
    assert Got(Record(w, r), c) == got;
    if c.0 == r {
      MarkSentSlips(ch, c.1 in w.recorded, got, f.early, f.inTransit, f.astray, f.skipped);
    } else if c.1 == r {
      MarkReceivedSlips(ch, c.0 in w.recorded, got, f.early, f.inTransit, f.astray, f.skipped);
      NothingYet(ch, c.0 in w.recorded, got);
      NoneRepeated(ch, f.again);
    }
  }

  lemma Unchanged(w: Snapshot, w': Snapshot, c: (nat, nat), f: Flags)
    requires SlipsOk(w, c, f) && c in w'.channels && w'.channels[c] == w.channels[c]
    requires w'.recorded == w.recorded && Got(w', c) == Got(w, c)
    ensures SlipsOk(w', c, f)
  {
  }

  /** Steps on other channels slip nothing here. */
  lemma NoSlip(w: Snapshot, step: Step, p: nat, q: nat, f: Flags)
    requires step.Send? || step.Initiate? || step.p != p || step.q != q
    ensures After(w, step, p, q, f) == f
  {
  }

  lemma StepSlips(w: Snapshot, step: Step, w': Snapshot, p: nat, q: nat, f: Flags)
    requires Inv(w) && Next(w, step, w') && SlipsOk(w, (p, q), f)
    ensures SlipsOk(w', (p, q), After(w, step, p, q, f))
  {
    hide Inv, SlipsOk, After, Record, TakeMarker, Sent, Received, Lost, Got;
    match step
    case Send(p', q', x) =>
      NoSlip(w, step, p, q, f);
      SendStep(w, p', q', x, (p, q), f);
    case Initiate(r) =>
      NoSlip(w, step, p, q, f);
      RecordSlips(w, r, (p, q), f);
    case ReceivePacket(p', q', at, stays) => ReceiveStep(w, p', q', at, stays, p, q, f);
    case LosePacket(p', q', at) => LoseStep(w, p', q', at, p, q, f);
    case ReceiveMarker(p', q', at) => MarkerStep(w, p', q', at, p, q, f);
  }

  lemma SendStep(w: Snapshot, p: nat, q: nat, x: Payload, c: (nat, nat), f: Flags)
    requires Inv(w) && SlipsOk(w, c, f) && (p, q) in w.channels
    ensures SlipsOk(w.(channels := w.channels[(p, q) := Sent(w.channels[(p, q)], x)]), c, f)
  {
    var w' := w.(channels := w.channels[(p, q) := Sent(w.channels[(p, q)], x)]);
    ChannelInvAt(w, c);
    hide Inv, Distinct, ItemsFrom, ChannelOk, EarlyOk, TransitOk, CompleteOk, Sent;
    assert Got(w', c) == Got(w, c);
    if c == (p, q) {
      SendSlips(w.channels[c], c.0 in w.recorded, c.1 in w.recorded, Got(w, c), x,
                f.early, f.inTransit, f.astray, f.skipped);
    }
  }

  lemma AfterReceiving(w: Snapshot, p: nat, q: nat, at: nat, stays: bool, f: Flags)
    requires HasItem(w, p, q, at, false)
    ensures var ch := w.channels[(p, q)];
            var passes, recording := Passes(ch, at), q in w.recorded && p !in w.markersFrom[q];
            After(w, ReceivePacket(p, q, at, stays), p, q, f)
            == f.(early := f.early || (q !in w.recorded && passes),
                  inTransit := f.inTransit || (q in w.recorded && passes),
                  again := f.again || (recording && Repeats(ch, at)))
  {
    hide Passes;
  }

  lemma AfterLosing(w: Snapshot, p: nat, q: nat, at: nat, f: Flags)
    requires HasItem(w, p, q, at, false)
    ensures After(w, LosePacket(p, q, at), p, q, f)
            == f.(astray := f.astray || (p !in w.markersFrom[q] && StillToCome(w.channels[(p, q)], at)))
  {
    hide Passes;
  }

  lemma ReceiveStep(w: Snapshot, p': nat, q': nat, at: nat, stays: bool, p: nat, q: nat, f: Flags)
    requires Inv(w) && SlipsOk(w, (p, q), f) && HasItem(w, p', q', at, false)
    ensures var recording := q' in w.recorded && p' !in w.markersFrom[q'];
            var ch' := Received(w.channels[(p', q')], at, recording, stays);
            SlipsOk(w.(channels := w.channels[(p', q') := ch']), (p, q),
                    After(w, ReceivePacket(p', q', at, stays), p, q, f))
  {
    hide Inv, Distinct, ItemsFrom, ChannelOk, EarlyOk, TransitOk, CompleteOk, Received, Passes, After, Got, AgainOk;
    ChannelInvAt(w, (p, q));
    var ch, got, recording := w.channels[(p, q)], Got(w, (p, q)), q' in w.recorded && p' !in w.markersFrom[q'];
    SameGot(w, (p', q'), Received(w.channels[(p', q')], at, recording, stays), (p, q));
    if p' == p && q' == q {
      AfterReceiving(w, p, q, at, stays, f);
      WaitingIsGotNone(w, p, q);
      ReceiveSlips(ch, p in w.recorded, q in w.recorded, got, at, stays, f.early, f.inTransit);
      if q in w.recorded && got == 0 { WaitingIsReceived(ch, p in w.recorded, got); }
      ReceiveRepeats(ch, at, q in w.recorded && got == 0, stays, f.again);
      ReceiveMisses(ch, p in w.recorded, q in w.recorded, got, at, stays, f.astray, f.skipped);
    } else {
      NoSlip(w, ReceivePacket(p', q', at, stays), p, q, f);
    }
  }

  lemma SameGot(w: Snapshot, c: (nat, nat), ch: Channel, d: (nat, nat))
    ensures Got(w.(channels := w.channels[c := ch]), d) == Got(w, d)
  {
  }

  lemma LossKeepsRecords(ch: Channel, at: nat, fromDone: bool, toDone: bool, early: bool, inTransit: bool, again: bool)
    requires at < |ch.items| && EarlyOk(ch, fromDone, toDone, early) && TransitOk(ch, fromDone, inTransit)
    requires AgainOk(ch, again)
    ensures EarlyOk(Lost(ch, at), fromDone, toDone, early) && TransitOk(Lost(ch, at), fromDone, inTransit)
    ensures AgainOk(Lost(ch, at), again)
  {
    hide Within, Without, Once;
  }

  lemma LoseStep(w: Snapshot, p': nat, q': nat, at: nat, p: nat, q: nat, f: Flags)
    requires Inv(w) && SlipsOk(w, (p, q), f) && HasItem(w, p', q', at, false)
    ensures SlipsOk(w.(channels := w.channels[(p', q') := Lost(w.channels[(p', q')], at)]), (p, q),
                    After(w, LosePacket(p', q', at), p, q, f))
  {
    hide Inv, Distinct, ItemsFrom, ChannelOk, EarlyOk, TransitOk, CompleteOk, Lost, Passes, After, Got;
    ChannelInvAt(w, (p, q));
    var ch, got := w.channels[(p, q)], Got(w, (p, q));
    SameGot(w, (p', q'), Lost(w.channels[(p', q')], at), (p, q));
    if p' == p && q' == q {
      AfterLosing(w, p, q, at, f);
      WaitingIsGotNone(w, p, q);
      LossKeepsRecords(ch, at, p in w.recorded, q in w.recorded, f.early, f.inTransit, f.again);
      LoseMisses(ch, p in w.recorded, q in w.recorded, got, at, f.astray, f.skipped);
    } else {
      NoSlip(w, LosePacket(p', q', at), p, q, f);
    }
  }

  lemma TakeSlips(w: Snapshot, p: nat, q: nat, at: nat, f: Flags)
    requires Inv(w) && SlipsOk(w, (p, q), f) && HasItem(w, p, q, at, true) && q in w.recorded
    ensures var ch := w.channels[(p, q)];
            SlipsOk(TakeMarker(w, p, q, at), (p, q), f.(skipped := f.skipped || Skips(ch, at)))
  {
    var ch, got := w.channels[(p, q)], Got(w, (p, q));
    ChannelInvAt(w, (p, q));
    MarkedChannel(w, p, q, at);
    TakenMarkers(w, p, q, at, (p, q));
    hide Inv, Distinct, ItemsFrom, ChannelOk, Got, Without, Letters, NothingMissing, AllRecorded;
    MarkerMisses(ch, at, f.astray, f.skipped);
  }

  lemma MarkerStep(w: Snapshot, p': nat, q': nat, at: nat, p: nat, q: nat, f: Flags)
    requires Inv(w) && SlipsOk(w, (p, q), f) && HasItem(w, p', q', at, true)
    ensures SlipsOk(TakeMarker(if q' in w.recorded then w else Record(w, q'), p', q', at), (p, q),
                    After(w, ReceiveMarker(p', q', at), p, q, f))
  {
    hide Inv, Got, FlagsOk;
    var w1 := if q' in w.recorded then w else Record(w, q');
    ChannelInvAt(w, (p', q'));
    if q' !in w.recorded {
      RecordInv(w, q');
      RecordSlips(w, q', (p, q), f);
      JustRecorded(w, p', q', at);
    }
    if p' == p && q' == q {
      TakeSlips(w1, p, q, at, f);
    } else {
      NoSlip(w, ReceiveMarker(p', q', at), p, q, f);
      TakenMarkers(w1, p', q', at, (p, q));
      Unchanged(w1, TakeMarker(w1, p', q', at), (p, q), f);
    }
  }

  // ---------- along a run ----------

  ghost function SlippedFlags(run: seq<Snapshot>, steps: seq<Step>, n: nat, p: nat, q: nat): Flags
    requires |run| == |steps| + 1 && n <= |steps|
  {
    Flags(Slipped(run, steps, n, Early, p, q), Slipped(run, steps, n, InTransit, p, q),
          Slipped(run, steps, n, Again, p, q), Slipped(run, steps, n, Astray, p, q),
          Slipped(run, steps, n, Skipped, p, q))
  }

  lemma SlippedNext(run: seq<Snapshot>, steps: seq<Step>, n: nat, kind: Slip, p: nat, q: nat)
    requires |run| == |steps| + 1 && n < |steps|
    ensures Slipped(run, steps, n + 1, kind, p, q)
            <==> Slipped(run, steps, n, kind, p, q) || Slips(run[n], steps[n], kind, p, q)
  {
    hide Slips;
  }

  lemma FlagsNext(run: seq<Snapshot>, steps: seq<Step>, n: nat, p: nat, q: nat)
    requires |run| == |steps| + 1 && n < |steps|
    ensures SlippedFlags(run, steps, n + 1, p, q)
            == After(run[n], steps[n], p, q, SlippedFlags(run, steps, n, p, q))
  {
    hide Slips, Slipped;
    SlippedNext(run, steps, n, Early, p, q);
    SlippedNext(run, steps, n, InTransit, p, q);
    SlippedNext(run, steps, n, Again, p, q);
    SlippedNext(run, steps, n, Astray, p, q);
    SlippedNext(run, steps, n, Skipped, p, q);
  }

  lemma StartSlips(w: Snapshot, p: nat, q: nat)
    requires Init(w) && (p, q) in w.channels
    ensures SlipsOk(w, (p, q), Flags(false, false, false, false, false))
  {
    assert Got(w, (p, q)) == 0;
    assert Before([]) == [] && Letters([]) == {};
  }

  lemma {:induction false} RunSlips(run: seq<Snapshot>, steps: seq<Step>, n: nat, p: nat, q: nat)
    requires IsRun(run, steps) && n <= |steps| && p in run[0].hosts && q in run[0].hosts && p != q
    ensures SlipsOk(run[n], (p, q), SlippedFlags(run, steps, n, p, q))
  {
    hide Next, Inv, Init, SlipsOk, Slips, After;
    if n == 0 {
      StartSlips(run[0], p, q) by { FirstChannels(run[0], p, q); }
    } else {
      RunSlips(run, steps, n - 1, p, q);
      RunInv(run, steps, n - 1);
      StepSlips(run[n - 1], steps[n - 1], run[n - 1 + 1], p, q, SlippedFlags(run, steps, n - 1, p, q));
      FlagsNext(run, steps, n - 1, p, q);
    }
  }

  lemma FirstChannels(w: Snapshot, p: nat, q: nat)
    requires Init(w) && p in w.hosts && q in w.hosts && p != q
    ensures (p, q) in w.channels
  {
  }

  // ---------- exactly when ----------

  /** The recorded states of `p` and `q` are consistent, that is, `q` has recorded the receipt of no
      packet that `p` has not recorded sending, exactly if no packet from `p` passed the marker before
      `q` had recorded. Loss and reordering do not matter otherwise. */
  lemma ConsistentExactlyWhen(run: seq<Snapshot>, steps: seq<Step>, n: nat, p: nat, q: nat)
    requires IsRun(run, steps) && n <= |steps| && p in run[0].hosts && q in run[0].hosts && p != q
    requires p in run[n].recorded && q in run[n].recorded
    ensures (p, q) in run[n].channels
    ensures var ch := run[n].channels[(p, q)];
            Within(ch.receivedAtRecording, ch.sentAtRecording) <==> !Slipped(run, steps, n, Early, p, q)
  {
    hide IsRun, Slipped, Within, CompleteOk, TransitOk;
    RunSlips(run, steps, n, p, q);
  }

  /** The channel is recorded as it should be: once each, what `p` has recorded as sent and `q` not as
      received. */
  ghost predicate HoldsTransit(ch: Channel) {
    forall l :: multiset(ch.recordedInTransit)[l]
                == if l in ch.sentAtRecording && l !in ch.receivedAtRecording then 1 else 0
  }

  /** Once its marker has come, the recorded channel from `p` to `q` holds exactly what was in transit
      across the cut if and only if, meanwhile, no packet passed the marker or came again, the marker
      passed no packet still to come, and none of these was lost. */
  lemma TransitExactlyWhen(run: seq<Snapshot>, steps: seq<Step>, n: nat, p: nat, q: nat)
    requires IsRun(run, steps) && n <= |steps| && p in run[0].hosts && q in run[0].hosts && p != q
    requires q in run[n].markersFrom && p in run[n].markersFrom[q]
    ensures p in run[n].recorded && q in run[n].recorded && (p, q) in run[n].channels
    ensures HoldsTransit(run[n].channels[(p, q)])
            <==> !Slipped(run, steps, n, InTransit, p, q) && !Slipped(run, steps, n, Again, p, q)
                 && !Slipped(run, steps, n, Astray, p, q) && !Slipped(run, steps, n, Skipped, p, q)
  {
    hide Next, Init, Slipped, Inv, Got, Distinct, ItemsFrom, ChannelOk, FlagsOk, HoldsTransit;
    RunSlips(run, steps, n, p, q);
    RunInv(run, steps, n);
    var w := run[n];
    ChannelInvAt(w, (p, q));
    WaitingIsGotNone(w, p, q);
    MarkerCame(w, p, q);
    TransitOfFlags(w.channels[(p, q)], Got(w, (p, q)), p in w.recorded, SlippedFlags(run, steps, n, p, q));
  }

  lemma TransitOfFlags(ch: Channel, got: nat, fromDone: bool, f: Flags)
    requires got > 0 && ChannelOk(ch, fromDone, true, got) && FlagsOk(ch, fromDone, true, got, f)
    ensures fromDone && (HoldsTransit(ch) <==> !f.inTransit && !f.again && !f.astray && !f.skipped)
  {
    hide Letters, Before, EarlyOk;
    if HoldsTransit(ch) {
      forall l ensures l in ch.recordedInTransit <==> l in ch.sentAtRecording && l !in ch.receivedAtRecording {
        assert l in ch.recordedInTransit <==> multiset(ch.recordedInTransit)[l] > 0;
      }
      assert Within(ch.recordedInTransit, ch.sentAtRecording);
      assert AllRecorded(ch);
      assert forall l :: Once(ch.recordedInTransit, ch.receivedAtRecording, l);
    }
    if !f.inTransit && !f.again && !f.astray && !f.skipped {
      forall l
        ensures multiset(ch.recordedInTransit)[l]
                == if l in ch.sentAtRecording && l !in ch.receivedAtRecording then 1 else 0
      {
        assert Once(ch.recordedInTransit, ch.receivedAtRecording, l);
        assert l in ch.recordedInTransit <==> multiset(ch.recordedInTransit)[l] > 0;
      }
    }
  }

  // ---------- a packet overtakes a marker ----------

  const NEW := Channel([], [], [], [], [], [])
  const LETTER := Letter(0, DataPayload(DataMessage(1, 0, 7)))
  const MARKED := NEW.(items := [Marker])
  const SENT := MARKED.(items := [Marker, Mail(LETTER)], sent := [LETTER])
  const PASSED := MARKED.(sent := [LETTER], received := [LETTER])
  const CUT := PASSED.(items := [], receivedAtRecording := [LETTER])

  function State(c: Channel, d: Channel, recorded: set<nat>, m: seq<nat>): Snapshot {
    Snapshot({1, 2}, map[(1, 2) := c, (2, 1) := d], recorded, map[1 := [], 2 := m])
  }

  const W0 := State(NEW, NEW, {}, [])
  const W1 := State(MARKED, NEW, {1}, [])
  const W2 := State(SENT, NEW, {1}, [])
  const W3 := State(PASSED, NEW, {1}, [])
  const W4 := State(CUT, MARKED, {1, 2}, [1])
  const STEPS := [Initiate(1), Send(1, 2, LETTER.payload), ReceivePacket(1, 2, 1, false), ReceiveMarker(1, 2, 0)]

  lemma MarkNew()
    ensures MarkSent(NEW) == MARKED && MarkReceived(NEW) == NEW && Init(W0)
  {
    assert [] + [Marker] == [Marker];
    assert |{1, 2}| == 2;
  }

  lemma ItInitiates()
    ensures Next(W0, Initiate(1), W1)
  {
    MarkNew();
    hide MARKED, NEW, MarkSent, MarkReceived;
    assert Record(W0, 1).channels == map[(1, 2) := MARKED, (2, 1) := NEW];
  }

  lemma ItSends()
    ensures Next(W1, Send(1, 2, LETTER.payload), W2)
  {
    assert Sent(MARKED, LETTER.payload) == SENT by { assert [Marker] + [Mail(LETTER)] == [Marker, Mail(LETTER)]; }
    hide Sent, MARKED, SENT;
    assert W1.channels[(1, 2) := SENT] == W2.channels;
  }

  lemma ItOvertakes()
    ensures Next(W2, ReceivePacket(1, 2, 1, false), W3)
  {
    assert Received(SENT, 1, false, false) == PASSED by {
      assert Without([Marker, Mail(LETTER)], 1) == [Marker];
      assert [] + [LETTER] == [LETTER];
    }
    hide Received, PASSED;
    assert W2.channels[(1, 2) := PASSED] == W3.channels;
  }

  lemma SecondRecords(c: Channel, d: Channel)
    ensures Record(State(c, d, {1}, []), 2) == State(MarkReceived(c), MarkSent(d), {1, 2}, [])
  {
    hide MarkReceived, MarkSent;
    assert Record(State(c, d, {1}, []), 2).channels == map[(1, 2) := MarkReceived(c), (2, 1) := MarkSent(d)];
  }

  lemma MarkerIsTaken(c: Channel, d: Channel)
    requires c.items != []
    ensures TakeMarker(State(c, d, {1, 2}, []), 1, 2, 0) == State(Lost(c, 0), d, {1, 2}, [1])
  {
    hide Lost;
    assert [] + [1] == [1];
    assert map[(1, 2) := c, (2, 1) := d][(1, 2) := Lost(c, 0)] == map[(1, 2) := Lost(c, 0), (2, 1) := d];
    assert map[1 := [], 2 := []][2 := [1]] == map[1 := [], 2 := [1]];
  }

  lemma FirstItem(c: Channel, d: Channel)
    requires c.items != [] && c.items[0].Marker?
    ensures HasItem(State(c, d, {1}, []), 1, 2, 0, true)
    ensures State(c, d, {1}, []).recorded == {1}
  {
  }

  lemma CutIsTaken()
    ensures Lost(MarkReceived(PASSED), 0) == CUT && PASSED.items == [Marker]
  {
    assert Without([Marker], 0) == [];
  }

  lemma ItRecords()
    ensures Next(W3, ReceiveMarker(1, 2, 0), W4)
  {
    hide State, Record, TakeMarker, HasItem, Lost, MarkSent, MarkReceived, CUT, MARKED, NEW;
    MarkNew();
    CutIsTaken();
    SecondRecords(PASSED, NEW);
    MarkerIsTaken(MarkReceived(PASSED), MarkSent(NEW)) by { ItemsKept(PASSED); }
    FirstItem(PASSED, NEW);
  }

  lemma ItemsKept(c: Channel)
    ensures MarkReceived(c).items == c.items
  {
  }

  /** It happens: process 2 records having received a packet that process 1 has not recorded sending. */
  lemma OvertakingBreaksTheCut()
    ensures IsRun([W0, W1, W2, W3, W4], STEPS)
    ensures W4.recorded == {1, 2} && (1, 2) in W4.channels
    ensures W4.channels[(1, 2)].receivedAtRecording == [LETTER] && W4.channels[(1, 2)].sentAtRecording == []
    ensures Slipped([W0, W1, W2, W3, W4], STEPS, 4, Early, 1, 2)
  {
    hide Next, Init, Slipped;
    MarkNew();
    ItInitiates();
    ItSends();
    ItOvertakes();
    ItRecords();
    ConsistentExactlyWhen([W0, W1, W2, W3, W4], STEPS, 4, 1, 2);
    assert LETTER in [LETTER];
  }
}
