/** The whole system: the processes, the datagrams in flight, and the runs they allow. */
module Machine {
  import opened Messages
  import opened NodeSpec

  type Nodes = map<nat, NodeState>

  datatype World = World(hosts: set<nat>, nodes: Nodes, net: set<Packet>)

  ghost predicate Init(w: World) {
    && |w.hosts| >= 2
    && w.nodes.Keys == w.hosts
    && (forall p :: p in w.hosts ==> w.nodes[p] == InitialNode(p))
    && w.net == {}
  }

  /** A process handles an event, or the network loses a packet. Receiving a packet leaves it
      in flight, so it may arrive again, late and in any order. */
  datatype Step = Act(p: nat, event: Event, sent: set<Packet>) | Lose(packet: Packet)

  /** The packet that has to be in flight for an event to happen at `p`. */
  predicate Enabled(w: World, p: nat, e: Event) {
    match e
    case OnData(d) => Packet(p, DataPayload(d)) in w.net
    case OnAck(a) => Packet(p, AckPayload(a)) in w.net
    case OnSeq(m) => Packet(p, SeqPayload(m)) in w.net
    case _ => true
  }

  ghost predicate NextStep(w: World, step: Step, w': World) {
    match step
    case Act(p, e, sent) =>
      && p in w.nodes && p in w'.nodes && Enabled(w, p, e)
      && NodeNext(w.hosts, w.nodes[p], e, w'.nodes[p], sent)
      && w' == World(w.hosts, w.nodes[p := w'.nodes[p]], w.net + sent)
    case Lose(packet) =>
      w' == w.(net := w.net - {packet})
  }

  ghost predicate Next(w: World, w': World) {
    exists step :: NextStep(w, step, w')
  }

  ghost predicate IsRun(run: seq<World>) {
    && |run| > 0 && Init(run[0])
    && forall i :: 0 <= i < |run| - 1 ==> Next(run[i], run[i + 1])
  }

  ghost predicate Reachable(w: World) {
    exists run :: IsRun(run) && run[|run| - 1] == w
  }
}
