/** From the runs of all processes to the recording of one: what arrives at a process in a run of `Cut`
    is a sequence of arrivals on which its daemon records the channels of that run. */
module CutArrivals {
  import opened Messages
  import opened Recording
  import opened Cut

  function Payloads(ls: seq<Letter>): seq<Payload> {
    seq(|ls|, i requires 0 <= i < |ls| => ls[i].payload)
  }

  lemma PayloadsAppend(ls: seq<Letter>, l: Letter)
    ensures Payloads(ls + [l]) == Payloads(ls) + [l.payload]
  {
  }

  predicate Initiated(steps: seq<Step>, q: nat, n: nat)
    requires n <= |steps|
  {
    exists i :: 0 <= i < n && steps[i] == Initiate(q)
  }

  /** What one step brings to `q`, given what it has heard so far. Nothing counts that came before it
      initiated the snapshot, if it did. */
  function Hears(w: Snapshot, step: Step, q: nat, heard: seq<Arrival>): seq<Arrival> {
    match step
    case Initiate(p) => if p == q then [] else heard
    case ReceivePacket(p', q', at, _) =>
      if q' == q && HasItem(w, p', q', at, false)
      then heard + [PacketArrives(w.channels[(p', q')].items[at].letter.payload)] else heard
    case ReceiveMarker(p', q', _) => if q' == q then heard + [MarkerArrives(p')] else heard
    case _ => heard
  }

  function Heard(run: seq<Snapshot>, steps: seq<Step>, q: nat, n: nat): seq<Arrival>
    requires |run| == |steps| + 1 && n <= |steps|
  {
    if n == 0 then [] else Hears(run[n - 1], steps[n - 1], q, Heard(run, steps, q, n - 1))
  }

  /** The state `e` of the recording rule at `q` is what the run has recorded there. */
  ghost predicate Matches(w: Snapshot, q: nat, e: Eager) {
    && q in w.markersFrom && e.started == (q in w.recorded) && e.received == w.markersFrom[q]
    && forall p :: (p, q) in w.channels ==>
         Recording.Channel(e.channels, p) == Payloads(w.channels[(p, q)].recordedInTransit)
  }

  // ---------- when all markers have come ----------

  ghost function Elements(s: seq<nat>): set<nat> {
    set x | x in s
  }

  lemma {:induction false} NoRepeatsSize(s: seq<nat>)
    requires forall x :: multiset(s)[x] <= 1
    ensures |Elements(s)| == |s|
  {
    if s != [] {
      var rest, x := s[..|s| - 1], s[|s| - 1];
      assert s == rest + [x];
      assert multiset(s) == multiset(rest) + multiset{x};
      forall y ensures multiset(rest)[y] <= 1 { assert multiset(s)[y] <= 1; }
      NoRepeatsSize(rest);
      assert x !in rest by { assert multiset(s)[x] <= 1; }
      assert Elements(s) == Elements(rest) + {x};
    }
  }

  lemma FullSet(a: set<nat>, b: set<nat>)
    requires a <= b && |a| >= |b|
    ensures a == b
  {
    assert |b| == |a| + |b - a| by { assert b == a + (b - a); }
  }

  lemma MarkersDiffer(w: Snapshot, q: nat)
    requires Inv(w) && q in w.markersFrom
    ensures forall x :: multiset(w.markersFrom[q])[x] <= 1
  {
    hide ChannelInv;
    forall x ensures multiset(w.markersFrom[q])[x] <= 1 {
      if x in w.markersFrom[q] {
        assert (x, q) in w.channels;
        GotOnce(w, x, q);
      }
    }
  }

  lemma GotOnce(w: Snapshot, p: nat, q: nat)
    requires Inv(w) && (p, q) in w.channels && q in w.markersFrom
    ensures multiset(w.markersFrom[q])[p] <= 1
    ensures MarkerCount(w.channels[(p, q)].items) > 0 ==> p !in w.markersFrom[q]
    ensures p in w.recorded || p !in w.markersFrom[q]
  {
    hide Inv, Letters, Before, Distinct, MarkerCount;
    ChannelInvAt(w, (p, q));
    assert multiset(w.markersFrom[q])[p] == Got(w, (p, q));
  }

  lemma FinishedIsAll(w: Snapshot, q: nat, p: nat)
    requires Inv(w) && q in w.markersFrom && |w.markersFrom[q]| + 1 >= |w.hosts| && (p, q) in w.channels
    ensures p in w.markersFrom[q]
  {
    hide ChannelInv;
    MarkersDiffer(w, q);
    NoRepeatsSize(w.markersFrom[q]);
    var c := (p, q);
    assert c.0 in w.hosts && c.0 != c.1 && q in w.hosts;
    forall x | x in w.markersFrom[q] ensures x in w.hosts - {q} {
      var d := (x, q);
      assert d in w.channels && d.0 in w.hosts && d.0 != d.1;
    }
    assert |w.hosts - {q}| == |w.hosts| - 1;
    assert Elements(w.markersFrom[q]) <= w.hosts - {q};
    FullSet(Elements(w.markersFrom[q]), w.hosts - {q});
    assert p in w.hosts - {q} && p in Elements(w.markersFrom[q]);
  }

  // ---------- every step ----------

  lemma SameRecords(w: Snapshot, w': Snapshot, q: nat, e: Eager)
    requires Matches(w, q, e) && q in w'.markersFrom && w'.markersFrom[q] == w.markersFrom[q]
    requires q in w'.recorded <==> q in w.recorded
    requires w'.channels.Keys == w.channels.Keys
    requires forall p :: (p, q) in w.channels ==>
               w'.channels[(p, q)].recordedInTransit == w.channels[(p, q)].recordedInTransit
    ensures Matches(w', q, e)
  {
  }

  lemma RecordingKeepsTransit(w: Snapshot, r: nat)
    ensures forall c :: c in w.channels ==>
              Record(w, r).channels[c].recordedInTransit == w.channels[c].recordedInTransit
  {
  }

  lemma InitiateMatches(w: Snapshot, q: nat)
    requires Inv(w) && w.recorded == {} && q in w.hosts
    ensures Matches(Record(w, q), q, EagerStart(true))
  {
    hide ChannelInv, Record;
    RecordingKeepsTransit(w, q);
    forall p | (p, q) in w.channels ensures w.channels[(p, q)].recordedInTransit == [] && p !in w.markersFrom[q] {
      GotOnce(w, p, q);
      NothingRecordedYet(w, p, q);
    }
    forall p ensures p !in w.markersFrom[q] { NotAChannel(w, p, q); }
    NoElements(w.markersFrom[q]);
  }

  lemma NotAChannel(w: Snapshot, p: nat, q: nat)
    requires Inv(w) && q in w.hosts
    ensures p in w.markersFrom[q] ==> (p, q) in w.channels
  {
    hide ChannelInv;
  }

  lemma NoElements(s: seq<nat>)
    requires forall x :: x !in s
    ensures s == []
  {
    forall x ensures multiset(s)[x] == 0 { assert x !in s; }
    NoRepeatsSize(s);
    assert Elements(s) == {};
  }

  lemma NothingRecordedYet(w: Snapshot, p: nat, q: nat)
    requires Inv(w) && (p, q) in w.channels && q !in w.recorded
    ensures w.channels[(p, q)].recordedInTransit == []
  {
    hide Inv, Letters, Before, Distinct, MarkerCount;
    ChannelInvAt(w, (p, q));
  }

  lemma PacketMatches(w: Snapshot, p: nat, q: nat, at: nat, stays: bool, e: Eager)
    requires Inv(w) && HasItem(w, p, q, at, false) && Matches(w, q, e)
    ensures var recording := q in w.recorded && p !in w.markersFrom[q];
            Matches(w.(channels := w.channels[(p, q) := Received(w.channels[(p, q)], at, recording, stays)]), q,
                    EagerStep(e, |w.hosts|, PacketArrives(w.channels[(p, q)].items[at].letter.payload)))
  {
    hide Inv, Without, Payloads;
    var l := w.channels[(p, q)].items[at].letter;
    NamesItsSender(w, p, q, at);
    PayloadsAppend(w.channels[(p, q)].recordedInTransit, l);
    if Finished(e.started, e.received, |w.hosts|) { FinishedIsAll(w, q, p); }
  }

  lemma NamesItsSender(w: Snapshot, p: nat, q: nat, at: nat)
    requires Inv(w) && HasItem(w, p, q, at, false)
    ensures Source(w.channels[(p, q)].items[at].letter.payload) == p
  {
    hide Inv, ChannelOk, Distinct;
    ChannelInvAt(w, (p, q));
    assert w.channels[(p, q)].items[at].letter in Letters(w.channels[(p, q)].items);
  }

  lemma MarkerMatches(w: Snapshot, p: nat, q: nat, at: nat, e: Eager)
    requires Inv(w) && HasItem(w, p, q, at, true) && Matches(w, q, e)
    ensures Matches(TakeMarker(if q in w.recorded then w else Record(w, q), p, q, at), q,
                    EagerStep(e, |w.hosts|, MarkerArrives(p)))
  {
    hide Inv, Without, Payloads, Record;
    ChannelInvAt(w, (p, q));
    JustRecorded(w, p, q, at);
    CountWithout(w.channels[(p, q)].items, at);
    GotOnce(w, p, q);
    if Finished(e.started, e.received, |w.hosts|) {
      FinishedIsAll(w, q, p);
      assert false;
    }
    RecordingKeepsTransit(w, q);
  }

  /** Everything else leaves `q` as it is. */
  lemma ElsewhereMatches(w: Snapshot, step: Step, w': Snapshot, q: nat, e: Eager)
    requires Inv(w) && Next(w, step, w') && Matches(w, q, e)
    requires step.Initiate? ==> step.p != q
    requires step.ReceivePacket? || step.ReceiveMarker? ==> step.q != q
    ensures Matches(w', q, e)
  {
    hide Inv, Without, Record, Payloads, Matches;
    match step
    case Send(p, q', x) =>
      MatchesHost(w, q, e);
      SameRecords(w, w', q, e);
    case Initiate(r) =>
      RecordingKeepsTransit(w, r);
      MatchesHost(w, q, e);
      SameRecords(w, w', q, e);
    case ReceivePacket(p, q', at, stays) =>
      MatchesHost(w, q, e);
      SameRecords(w, w', q, e);
    case LosePacket(p, q', at) =>
      MatchesHost(w, q, e);
      SameRecords(w, w', q, e);
    case ReceiveMarker(p, q', at) =>
      RecordingKeepsTransit(w, q');
      MatchesHost(w, q, e);
      ChannelInvAt(w, (p, q'));
      JustRecorded(w, p, q', at);
      SameRecords(w, w', q, e);
  }

  lemma MatchesHost(w: Snapshot, q: nat, e: Eager)
    requires Matches(w, q, e)
    ensures q in w.markersFrom
  {
  }

  // ---------- along a run ----------

  ghost function RuleAt(run: seq<Snapshot>, steps: seq<Step>, q: nat, n: nat): Eager
    requires |run| == |steps| + 1 && n <= |steps|
  {
    EagerRun(EagerStart(Initiated(steps, q, n)), |run[0].hosts|, Heard(run, steps, q, n))
  }

  lemma OneMore(s: Eager, numHosts: nat, heard: seq<Arrival>, a: Arrival)
    ensures EagerRun(s, numHosts, heard + [a]) == EagerStep(EagerRun(s, numHosts, heard), numHosts, a)
  {
    assert (heard + [a])[..|heard|] == heard;
  }

  lemma InitiatedNext(steps: seq<Step>, q: nat, n: nat)
    requires n < |steps|
    ensures Initiated(steps, q, n + 1) <==> Initiated(steps, q, n) || steps[n] == Initiate(q)
  {
  }

  lemma {:induction false} SameHosts(run: seq<Snapshot>, steps: seq<Step>, n: nat)
    requires IsRun(run, steps) && n <= |steps|
    ensures run[n].hosts == run[0].hosts
  {
    hide Init, Without;
    if n > 0 {
      SameHosts(run, steps, n - 1);
      assert Next(run[n - 1], steps[n - 1], run[n - 1 + 1]);
    }
  }

  lemma StartMatches(w: Snapshot, q: nat)
    requires Init(w) && q in w.hosts
    ensures Matches(w, q, EagerStart(false))
  {
  }

  /** In every run, at every process and time, the rule applied to what the process has heard records
      every channel as the run does. */
  lemma {:induction false} ArrivalsRecordTheChannels(run: seq<Snapshot>, steps: seq<Step>, q: nat, n: nat)
    requires IsRun(run, steps) && n <= |steps| && q in run[0].hosts
    ensures Matches(run[n], q, RuleAt(run, steps, q, n))
  {
    hide Next, Inv, Init, Matches, EagerRun, EagerStep, Initiated, Hears;
    if n == 0 {
      assert !Initiated(steps, q, 0) by { NeverInitiated(steps, q); }
      StartMatches(run[0], q);
      NothingHeard(EagerStart(false), |run[0].hosts|);
    } else {
      ArrivalsRecordTheChannels(run, steps, q, n - 1);
      RunInv(run, steps, n - 1);
      SameHosts(run, steps, n - 1);
      InitiatedNext(steps, q, n - 1);
      StepMatches(run[n - 1], steps[n - 1], run[n - 1 + 1], q, Initiated(steps, q, n - 1),
                  Heard(run, steps, q, n - 1));
    }
  }

  lemma NeverInitiated(steps: seq<Step>, q: nat)
    ensures !Initiated(steps, q, 0)
  {
  }

  lemma NothingHeard(s: Eager, numHosts: nat)
    ensures EagerRun(s, numHosts, []) == s
  {
  }

  lemma StepMatches(w: Snapshot, step: Step, w': Snapshot, q: nat, initiated: bool, heard: seq<Arrival>)
    requires Inv(w) && Next(w, step, w') && Matches(w, q, EagerRun(EagerStart(initiated), |w.hosts|, heard))
    ensures Matches(w', q, EagerRun(EagerStart(initiated || step == Initiate(q)), |w.hosts|, Hears(w, step, q, heard)))
  {
    hide Inv, Matches, EagerRun, EagerStep, Record, TakeMarker, Received, Sent, Lost;
    var s := EagerStart(initiated);
    var e := EagerRun(s, |w.hosts|, heard);
    if step == Initiate(q) {
      InitiateMatches(w, q);
      NothingHeard(EagerStart(true), |w.hosts|);
    } else if step.ReceivePacket? && step.q == q {
      PacketMatches(w, step.p, q, step.at, step.stays, e);
      OneMore(s, |w.hosts|, heard, PacketArrives(w.channels[(step.p, q)].items[step.at].letter.payload));
    } else if step.ReceiveMarker? && step.q == q {
      MarkerMatches(w, step.p, q, step.at, e);
      OneMore(s, |w.hosts|, heard, MarkerArrives(step.p));
    } else {
      ElsewhereMatches(w, step, w', q, e);
    }
  }

  /** The daemon of a process that has heard all markers has recorded the channels of the run. */
  lemma DaemonRecordsTheChannels(run: seq<Snapshot>, steps: seq<Step>, q: nat, n: nat, p: nat)
    requires IsRun(run, steps) && n <= |steps| && q in run[0].hosts && (p, q) in run[n].channels
    requires q in run[n].recorded && q in run[n].markersFrom && |run[n].markersFrom[q]| + 1 >= |run[0].hosts|
    ensures var l := LazyRun(LazyStart(Initiated(steps, q, n)), |run[0].hosts|, Heard(run, steps, q, n));
            && Finished(l.started, l.received, |run[0].hosts|) && l.received == run[n].markersFrom[q]
            && Recording.Channel(l.channels, p) == Payloads(run[n].channels[(p, q)].recordedInTransit)
  {
    hide Next, Init, LazyRun, EagerRun, Initiated, Heard, Payloads, Drained;
    ArrivalsRecordTheChannels(run, steps, q, n);
    AtLeastTwo(run, steps);
    RunAgrees(Initiated(steps, q, n), |run[0].hosts|, Heard(run, steps, q, n));
    LazyRecordsTheSame(Initiated(steps, q, n), |run[0].hosts|, Heard(run, steps, q, n), p);
  }

  lemma AtLeastTwo(run: seq<Snapshot>, steps: seq<Step>)
    requires IsRun(run, steps)
    ensures |run[0].hosts| >= 2
  {
    hide Next;
  }
}
