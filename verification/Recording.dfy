/** Two ways to record the channels during a snapshot: on arrival, as the rule asks, and lazily,
    as the program does, by buffering packets and filtering them when the next marker comes. */
module Recording {
  import opened Messages

  /** What reaches a process: a packet, or a marker carrying the id of its sender. */
  datatype Arrival = PacketArrives(payload: Payload) | MarkerArrives(id: nat)

  /** The process a recorded packet is filed under. */
  function Source(p: Payload): nat {
    match p
    case DataPayload(d) => d.sender
    case AckPayload(a) => a.proposer
    case SeqPayload(m) => m.sender
  }

  type Channels = map<nat, seq<Payload>>

  function Channel(c: Channels, source: nat): seq<Payload> {
    if source in c then c[source] else []
  }

  // ---------- the rule ----------

  /** `started`: the local state has been recorded; `received`: whose markers have come. */
  datatype Eager = Eager(started: bool, received: seq<nat>, channels: Channels)

  predicate Finished(started: bool, received: seq<nat>, numHosts: nat) {
    started && |received| + 1 >= numHosts
  }

  /** A packet is recorded unless the marker of its source has already come. */
  function EagerStep(s: Eager, numHosts: nat, e: Arrival): Eager {
    if Finished(s.started, s.received, numHosts) then s
    else
      match e
      case PacketArrives(p) =>
        if s.started && Source(p) !in s.received then
          s.(channels := s.channels[Source(p) := Channel(s.channels, Source(p)) + [p]])
        else s
      case MarkerArrives(id) => s.(started := true, received := s.received + [id])
  }

  function EagerRun(s: Eager, numHosts: nat, arrivals: seq<Arrival>): Eager {
    if arrivals == [] then s
    else EagerStep(EagerRun(s, numHosts, arrivals[..|arrivals| - 1]), numHosts, arrivals[|arrivals| - 1])
  }

  // ---------- the program ----------

  datatype Lazy = Lazy(recording: bool, started: bool, received: seq<nat>, buffer: seq<Payload>, channels: Channels)

  function AddToInbound(c: Channels, received: seq<nat>, p: Payload): Channels {
    var known := if Source(p) in c then c else c[Source(p) := []];
    if Source(p) in received then known else known[Source(p) := known[Source(p)] + [p]]
  }

  function Drained(c: Channels, received: seq<nat>, buffer: seq<Payload>): Channels {
    if buffer == [] then c
    else AddToInbound(Drained(c, received, buffer[..|buffer| - 1]), received, buffer[|buffer| - 1])
  }

  function LazyStep(s: Lazy, numHosts: nat, e: Arrival): Lazy {
    match e
    case PacketArrives(p) =>
      if s.recording then s.(buffer := s.buffer + [p]) else s
    case MarkerArrives(id) =>
      if Finished(s.started, s.received, numHosts) then s
      else if !s.started then
        s.(started := true, received := s.received + [id], recording := |s.received| + 2 < numHosts)
      else
        s.(channels := Drained(s.channels, s.received, s.buffer), buffer := [],
           received := s.received + [id], recording := |s.received| + 2 < numHosts)
  }

  function LazyRun(s: Lazy, numHosts: nat, arrivals: seq<Arrival>): Lazy {
    if arrivals == [] then s
    else LazyStep(LazyRun(s, numHosts, arrivals[..|arrivals| - 1]), numHosts, arrivals[|arrivals| - 1])
  }

  /** A process that waits for a first marker, and one that has initiated the snapshot. */
  function LazyStart(initiator: bool): Lazy {
    Lazy(initiator, initiator, [], [], map[])
  }

  function EagerStart(initiator: bool): Eager {
    Eager(initiator, [], map[])
  }

  // ---------- they record the same ----------

  /** What the lazy state would have recorded if the buffer were filtered now. */
  ghost predicate Agree(l: Lazy, e: Eager, numHosts: nat) {
    && l.started == e.started && l.received == e.received
    && l.recording == (l.started && !Finished(l.started, l.received, numHosts))
    && (!l.recording ==> l.buffer == [])
    && forall k :: Channel(Drained(l.channels, l.received, l.buffer), k) == Channel(e.channels, k)
  }

  lemma DrainOneMore(c: Channels, received: seq<nat>, buffer: seq<Payload>, p: Payload)
    ensures Drained(c, received, buffer + [p]) == AddToInbound(Drained(c, received, buffer), received, p)
  {
    assert (buffer + [p])[..|buffer|] == buffer;
  }

  /** Every packet that is filtered leaves a channel under its source, even if an empty one. */
  lemma {:induction false} FiledSources(c: Channels, received: seq<nat>, buffer: seq<Payload>)
    ensures Drained(c, received, buffer).Keys == c.Keys + set p | p in buffer :: Source(p)
  {
    if buffer != [] {
      var rest, last := buffer[..|buffer| - 1], buffer[|buffer| - 1];
      FiledSources(c, received, rest);
      assert buffer == rest + [last];
      assert forall p :: p in buffer <==> p in rest || p == last;
    }
  }

  lemma StepAgrees(l: Lazy, e: Eager, numHosts: nat, a: Arrival)
    requires Agree(l, e, numHosts) && numHosts >= 2
    ensures Agree(LazyStep(l, numHosts, a), EagerStep(e, numHosts, a), numHosts)
  {
    match a
    case PacketArrives(p) =>
      if l.recording {
        DrainOneMore(l.channels, l.received, l.buffer, p);
        var c := Drained(l.channels, l.received, l.buffer);
        forall k ensures Channel(AddToInbound(c, l.received, p), k) == Channel(EagerStep(e, numHosts, a).channels, k) {
          assert Channel(c, k) == Channel(e.channels, k);
        }
      }
    case MarkerArrives(id) =>
  }

  lemma {:induction false} RunAgrees(initiator: bool, numHosts: nat, arrivals: seq<Arrival>)
    requires numHosts >= 2
    ensures Agree(LazyRun(LazyStart(initiator), numHosts, arrivals),
                  EagerRun(EagerStart(initiator), numHosts, arrivals), numHosts)
  {
    if arrivals != [] {
      RunAgrees(initiator, numHosts, arrivals[..|arrivals| - 1]);
      StepAgrees(LazyRun(LazyStart(initiator), numHosts, arrivals[..|arrivals| - 1]),
                 EagerRun(EagerStart(initiator), numHosts, arrivals[..|arrivals| - 1]),
                 numHosts, arrivals[|arrivals| - 1]);
    }
  }

  /** For every interleaving of packets and markers, the finished lazy recording holds for every
      source the same packets in the same order as the rule. */
  lemma LazyRecordsTheSame(initiator: bool, numHosts: nat, arrivals: seq<Arrival>, source: nat)
    requires numHosts >= 2
    requires var l := LazyRun(LazyStart(initiator), numHosts, arrivals); Finished(l.started, l.received, numHosts)
    ensures Channel(LazyRun(LazyStart(initiator), numHosts, arrivals).channels, source)
            == Channel(EagerRun(EagerStart(initiator), numHosts, arrivals).channels, source)
  {
    RunAgrees(initiator, numHosts, arrivals);
  }

  // ---------- which markers are counted ----------

  function Markers(arrivals: seq<Arrival>): seq<nat> {
    if arrivals == [] then []
    else
      var last := arrivals[|arrivals| - 1];
      Markers(arrivals[..|arrivals| - 1]) + if last.MarkerArrives? then [last.id] else []
  }

  /** The daemon takes in the markers in the order in which they come, and no more than it needs. */
  lemma {:induction false} ReceivedIsMarkers(initiator: bool, numHosts: nat, arrivals: seq<Arrival>)
    requires numHosts >= 2
    ensures var l := LazyRun(LazyStart(initiator), numHosts, arrivals);
            var ms := Markers(arrivals);
            && l.received == (if |ms| < numHosts then ms else ms[..numHosts - 1])
            && (l.started <==> initiator || ms != [])
  {
    if arrivals != [] {
      ReceivedIsMarkers(initiator, numHosts, arrivals[..|arrivals| - 1]);
      var ms := Markers(arrivals[..|arrivals| - 1]);
      var last := arrivals[|arrivals| - 1];
      if last.MarkerArrives? && |ms| >= numHosts - 1 {
        assert (ms + [last.id])[..numHosts - 1] == ms[..numHosts - 1];
      }
    }
  }

  /** If the markers that come are those of the other hosts, one each, in whatever order and with
      whatever packets between them, the daemon ends with exactly these ids. */
  lemma CollectsExactlyTheOthers(initiator: bool, numHosts: nat, arrivals: seq<Arrival>, others: set<nat>)
    requires numHosts >= 2 && |others| == numHosts - 1 == |Markers(arrivals)|
    requires forall id :: id in Markers(arrivals) <==> id in others
    ensures var l := LazyRun(LazyStart(initiator), numHosts, arrivals);
            && Finished(l.started, l.received, numHosts)
            && |l.received| == |others| && (forall id :: id in l.received <==> id in others)
            && !l.recording
  {
    ReceivedIsMarkers(initiator, numHosts, arrivals);
    RunAgrees(initiator, numHosts, arrivals);
  }
}
