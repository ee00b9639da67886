/** The message structs of the multicast, the entries of the delivery queue and
    the order in which the queue is kept. */
module Messages {

  /** A multicast message is identified by its sender and the sender's own counter. */
  datatype MsgKey = MsgKey(sender: nat, msgId: nat)

  datatype DataMessage = DataMessage(sender: nat, msgId: nat, data: nat) {
    function Key(): MsgKey { MsgKey(sender, msgId) }
  }

  datatype AckMessage = AckMessage(sender: nat, msgId: nat, proposedSeq: nat, proposer: nat) {
    function Key(): MsgKey { MsgKey(sender, msgId) }
  }

  datatype SeqMessage = SeqMessage(sender: nat, msgId: nat, finalSeq: nat, finalSeqProposer: nat) {
    function Key(): MsgKey { MsgKey(sender, msgId) }
  }

  datatype Status = Undeliverable | Deliverable

  datatype QueuedMessage = QueuedMessage(sequenceNumber: nat, status: Status,
                                         sender: nat, msgId: nat, data: nat, proposer: nat) {
    function Key(): MsgKey { MsgKey(sender, msgId) }

    /** The entry once its final sequence number is known. */
    function Finalised(finalSeq: nat, finalProposer: nat): QueuedMessage {
      this.(sequenceNumber := finalSeq, status := Deliverable, proposer := finalProposer)
    }
  }

  /** The comparison handed to the heap algorithms: `left` comes out after `right`. */
  predicate Cmp(left: QueuedMessage, right: QueuedMessage) {
    if left.sequenceNumber == right.sequenceNumber then left.proposer > right.proposer
    else left.sequenceNumber > right.sequenceNumber
  }

  datatype Payload =
    | DataPayload(data: DataMessage)
    | AckPayload(ack: AckMessage)
    | SeqPayload(final: SeqMessage)

  /** A datagram in flight to `dst`. */
  datatype Packet = Packet(dst: nat, payload: Payload)
}
