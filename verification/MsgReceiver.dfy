/** From the bytes of a received packet to the handler that deals with it. */
module MsgReceiver {
  import opened Messages
  import opened NodeSpec
  import opened Wire
  import opened ReliableMulticastNode

  function EventOf(p: Payload): Event {
    match p
    case DataPayload(d) => OnData(d)
    case AckPayload(a) => OnAck(a)
    case SeqPayload(m) => OnSeq(m)
  }

  /** One round of the receiver thread: a packet whose leading word names no message type ends the
      program, any other is handled as the message it decodes to. */
  method ReceivePacket(rm: ReliableMulticast, buf: array<byte>) returns (sent: set<Packet>)
    requires buf.Length == MAX_STRUCT_SIZE && buf as object != rm.deliveryQueue
    requires rm.Valid() && !rm.exited
    modifies rm, rm.deliveryQueue
    ensures rm.Valid()
    ensures match old(Decode(buf[..]))
            case Recognised(p) => NodeNext(IdSet(rm.hostIds), old(rm.View()), EventOf(p), rm.View(), sent)
            case WrongType(w) => rm.View() == old(rm.View()).(exited := true) && sent == {}
  {
    hide NodeNext, Decode;
    var decoded := Deserialize(buf);
    match decoded
    case Recognised(DataPayload(d)) => sent := rm.HandleDatamsg(d);
    case Recognised(AckPayload(a)) => sent := rm.HandleAckmsg(a);
    case Recognised(SeqPayload(m)) => sent := rm.HandleSeqmsg(m);
    case WrongType(w) =>
      rm.exited := true;
      sent := {};
  }

  /** A packet written by a process is handled by the receiver as the event it was meant to be. */
  lemma WrittenIsHandled(s: seq<byte>, p: Payload)
    requires Encodes(s, p) && Fits(p)
    ensures Decode(s).Recognised? && EventOf(Decode(s).payload) == EventOf(p)
  {
    RoundTrip(s, p);
  }
}
