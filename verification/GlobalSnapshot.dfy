/** The snapshot daemon of one process: its fields, and the loop that collects markers, proved to
    record what `Recording.LazyRun` says. Handling a marker is one step, during which no packet
    arrives. */
module GlobalSnapshot {
  import opened Messages
  import opened Recording

  datatype Marker = Nothing | From(id: nat)

  /** A marker on its way: the id of its sender, sent to `dst`. */
  datatype SentMarker = SentMarker(dst: nat, id: nat)

  /** Markers from `id` to every host of `ids` but itself. */
  function MarkersToOthers(ids: seq<nat>, id: nat): seq<SentMarker> {
    if ids == [] then []
    else
      var last := ids[|ids| - 1];
      MarkersToOthers(ids[..|ids| - 1], id) + if last != id then [SentMarker(last, id)] else []
  }

  lemma MarkersOneMore(ids: seq<nat>, id: nat, h: nat)
    ensures MarkersToOthers(ids + [h], id)
            == MarkersToOthers(ids, id) + if h != id then [SentMarker(h, id)] else []
  {
    assert (ids + [h])[..|ids|] == ids;
  }

  lemma CountOneMore(ms: seq<SentMarker>, x: SentMarker, m: SentMarker)
    ensures multiset(ms + [x])[m] == multiset(ms)[m] + if m == x then 1 else 0
    ensures multiset(ms + [])[m] == multiset(ms)[m]
  {
    assert ms + [] == ms;
  }

  ghost predicate Distinct(ids: seq<nat>) {
    forall i, j :: 0 <= i < j < |ids| ==> ids[i] != ids[j]
  }

  lemma DistinctRest(ids: seq<nat>)
    requires Distinct(ids) && ids != []
    ensures var rest, last := ids[..|ids| - 1], ids[|ids| - 1];
            ids == rest + [last] && Distinct(rest) && forall h :: h in ids <==> h in rest || h == last
    ensures ids[|ids| - 1] !in ids[..|ids| - 1]
  {
    assert ids == ids[..|ids| - 1] + [ids[|ids| - 1]];
  }

  /** Exactly one marker goes to each other host, and it carries the id of its sender. */
  lemma {:induction false} OneMarkerEach(ids: seq<nat>, id: nat, m: SentMarker)
    requires Distinct(ids)
    ensures multiset(MarkersToOthers(ids, id))[m] == if m.dst in ids && m.dst != id && m.id == id then 1 else 0
  {
    hide Distinct;
    if ids != [] {
      var rest, last := ids[..|ids| - 1], ids[|ids| - 1];
      DistinctRest(ids);
      OneMarkerEach(rest, id, m);
      CountOneMore(MarkersToOthers(rest, id), SentMarker(last, id), m);
    }
  }

  class CLGlobalSnapshot {
    const currContainerId: nat
    const hostIds: seq<nat>
    const numHosts: nat
    var amInitiator: bool
    var recordMessages: bool
    var locsnapTaken: bool
    var alreadyReceivedProc: seq<nat>
    var inboundMessageBuffer: seq<Payload>
    var inboundChannelState: Channels
    /** The markers sent so far. */
    var markersSent: seq<SentMarker>

    ghost function View(): Lazy
      reads this
    {
      Lazy(recordMessages, locsnapTaken, alreadyReceivedProc, inboundMessageBuffer, inboundChannelState)
    }

    constructor (id: nat, hosts: seq<nat>)
      ensures currContainerId == id && hostIds == hosts && numHosts == |hosts|
      ensures !amInitiator && markersSent == [] && View() == LazyStart(false)
    {
      currContainerId, hostIds, numHosts := id, hosts, |hosts|;
      amInitiator, recordMessages, locsnapTaken := false, false, false;
      alreadyReceivedProc, inboundMessageBuffer, inboundChannelState := [], [], map[];
      markersSent := [];
    }

    /** Sends this process's id to every other host. */
    method BroadcastMarkers()
      modifies `markersSent
      ensures markersSent == old(markersSent) + MarkersToOthers(hostIds, currContainerId)
    {
      for i := 0 to |hostIds|
        invariant markersSent == old(markersSent) + MarkersToOthers(hostIds[..i], currContainerId)
      {
        assert hostIds[..i + 1] == hostIds[..i] + [hostIds[i]];
        MarkersOneMore(hostIds[..i], currContainerId, hostIds[i]);
        if hostIds[i] != currContainerId {
          markersSent := markersSent + [SentMarker(hostIds[i], currContainerId)];
        }
      }
      assert hostIds[..|hostIds|] == hostIds;
    }

    /** Records the local state, turns recording on and sends the markers. */
    method RecordAndBroadcast()
      modifies this
      ensures View() == old(View()).(started := true, recording := true)
      ensures markersSent == old(markersSent) + MarkersToOthers(hostIds, currContainerId)
      ensures amInitiator == old(amInitiator)
    {
      locsnapTaken := true;
      recordMessages := true;
      BroadcastMarkers();
    }

    method InitiateSnapshot()
      requires !amInitiator && markersSent == [] && View() == LazyStart(false)
      modifies this
      ensures amInitiator && View() == LazyStart(true)
      ensures markersSent == MarkersToOthers(hostIds, currContainerId)
    {
      amInitiator := true;
      RecordAndBroadcast();
    }

    /** What the receiver thread does with a packet before handling it. */
    method RecordPacket(p: Payload)
      modifies `inboundMessageBuffer
      ensures View() == LazyStep(old(View()), numHosts, PacketArrives(p))
    {
      if recordMessages {
        inboundMessageBuffer := inboundMessageBuffer + [p];
      }
    }

    method AddMsgToInbound(sender: nat, p: Payload)
      requires sender == Source(p)
      modifies `inboundChannelState
      ensures inboundChannelState == AddToInbound(old(inboundChannelState), alreadyReceivedProc, p)
    {
      if sender !in inboundChannelState {
        inboundChannelState := inboundChannelState[sender := []];
      }
      for i := 0 to |alreadyReceivedProc|
        invariant sender !in alreadyReceivedProc[..i]
      {
        if alreadyReceivedProc[i] == sender { return; }
      }
      inboundChannelState := inboundChannelState[sender := inboundChannelState[sender] + [p]];
    }

    method HandleInboundMessage(p: Payload)
      modifies `inboundChannelState
      ensures inboundChannelState == AddToInbound(old(inboundChannelState), alreadyReceivedProc, p)
    {
      var sender;
      match p {
        case DataPayload(d) => sender := d.sender;
        case AckPayload(a) => sender := a.proposer;
        case SeqPayload(m) => sender := m.sender;
      }
      AddMsgToInbound(sender, p);
    }

    /** Files all buffered packets, in the order in which they came. */
    method DrainInbound()
      modifies `inboundMessageBuffer, `inboundChannelState
      ensures inboundMessageBuffer == []
      ensures inboundChannelState == Drained(old(inboundChannelState), alreadyReceivedProc, old(inboundMessageBuffer))
    {
      ghost var all := inboundMessageBuffer;
      ghost var k := 0;
      while inboundMessageBuffer != []
        invariant 0 <= k <= |all| && inboundMessageBuffer == all[k..]
        invariant inboundChannelState == Drained(old(inboundChannelState), alreadyReceivedProc, all[..k])
        decreases |inboundMessageBuffer|
      {
        HandleInboundMessage(inboundMessageBuffer[0]);
        DrainOneMore(old(inboundChannelState), alreadyReceivedProc, all[..k], all[k]);
        assert all[..k + 1] == all[..k] + [all[k]];
        inboundMessageBuffer := inboundMessageBuffer[1..];
        k := k + 1;
      }
      assert all[..k] == all;
    }

    /** Waits for the next marker, while packets keep arriving. */
    method AcceptAndRecv(arrivals: seq<Arrival>, start: nat, ghost s: Lazy) returns (marker: Marker, next: nat)
      requires start <= |arrivals| && View() == LazyRun(s, numHosts, arrivals[..start])
      modifies `inboundMessageBuffer
      ensures marker.Nothing? ==> next == |arrivals| && View() == LazyRun(s, numHosts, arrivals)
      ensures marker.From? ==> start < next <= |arrivals| && arrivals[next - 1] == MarkerArrives(marker.id)
                               && View() == LazyRun(s, numHosts, arrivals[..next - 1])
    {
      next := start;
      while next < |arrivals|
        invariant start <= next <= |arrivals| && View() == LazyRun(s, numHosts, arrivals[..next])
      {
        RunOneMore(s, numHosts, arrivals, next);
        next := next + 1;
        match arrivals[next - 1]
        case MarkerArrives(id) => return From(id), next;
        case PacketArrives(p) => RecordPacket(p);
      }
      assert arrivals[..next] == arrivals;
      return Nothing, next;
    }

    /** Collects markers until every other process's has come; returns whether that happened. */
    method ListenForIncomingConnections(arrivals: seq<Arrival>) returns (finished: bool)
      requires numHosts >= 2 && View() == LazyStart(amInitiator)
      requires markersSent == if amInitiator then MarkersToOthers(hostIds, currContainerId) else []
      modifies this
      ensures View() == LazyRun(LazyStart(old(amInitiator)), numHosts, arrivals)
      ensures finished <==> Finished(View().started, View().received, numHosts)
      ensures markersSent == if View().started then MarkersToOthers(hostIds, currContainerId) else []
    {
      hide LazyRun, Drained;
      ghost var s := LazyStart(amInitiator);
      NoArrivals(s, numHosts, arrivals);
      var marker, i := AcceptAndRecv(arrivals, 0, s);
      if marker == Nothing { return false; }
      if !amInitiator {
        RunOneMore(s, numHosts, arrivals, i - 1);
        alreadyReceivedProc := alreadyReceivedProc + [marker.id];
        RecordAndBroadcast();
        if |alreadyReceivedProc| < numHosts - 1 {
          marker, i := AcceptAndRecv(arrivals, i, s);
          if marker == Nothing { return false; }
        }
      }
      while |alreadyReceivedProc| < numHosts - 1
        invariant locsnapTaken && recordMessages && 0 < i <= |arrivals|
        invariant markersSent == MarkersToOthers(hostIds, currContainerId)
        invariant |alreadyReceivedProc| < numHosts - 1 ==>
                    && marker.From? && arrivals[i - 1] == MarkerArrives(marker.id)
                    && View() == LazyRun(s, numHosts, arrivals[..i - 1])
        invariant |alreadyReceivedProc| >= numHosts - 1 ==>
                    View().(recording := false) == LazyRun(s, numHosts, arrivals[..i])
        decreases numHosts - |alreadyReceivedProc|
      {
        RunOneMore(s, numHosts, arrivals, i - 1);
        DrainInbound();
        alreadyReceivedProc := alreadyReceivedProc + [marker.id];
        if |alreadyReceivedProc| == numHosts - 1 { break; }
        marker, i := AcceptAndRecv(arrivals, i, s);
        if marker == Nothing { return false; }
      }
      recordMessages := false;
      NothingAfterFinish(s, numHosts, arrivals, i);
      return true;
    }
  }

  lemma NoArrivals(s: Lazy, numHosts: nat, arrivals: seq<Arrival>)
    ensures LazyRun(s, numHosts, arrivals[..0]) == s
  {
  }

  lemma RunOneMore(s: Lazy, numHosts: nat, arrivals: seq<Arrival>, i: nat)
    requires i < |arrivals|
    ensures LazyRun(s, numHosts, arrivals[..i + 1])
            == LazyStep(LazyRun(s, numHosts, arrivals[..i]), numHosts, arrivals[i])
  {
    assert arrivals[..i + 1][..i] == arrivals[..i];
  }

  /** Once finished, nothing that arrives changes anything. */
  lemma {:induction false} NothingAfterFinish(s: Lazy, numHosts: nat, arrivals: seq<Arrival>, i: nat)
    requires i <= |arrivals|
    requires var t := LazyRun(s, numHosts, arrivals[..i]); !t.recording && Finished(t.started, t.received, numHosts)
    ensures LazyRun(s, numHosts, arrivals) == LazyRun(s, numHosts, arrivals[..i])
    decreases |arrivals| - i
  {
    if i < |arrivals| {
      RunOneMore(s, numHosts, arrivals, i);
      NothingAfterFinish(s, numHosts, arrivals, i + 1);
    } else {
      assert arrivals[..i] == arrivals;
    }
  }
}
