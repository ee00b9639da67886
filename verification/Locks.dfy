/** The mutexes: every routine takes them along one order, releases what it took, and touches shared
    data only while it holds their mutex. So the main, receiver, watchdog and snapshot threads never
    wait for each other in a circle and never touch the same data at once. */
module Locks {

  datatype Mutex =
    | DataHistoryMutex | AckHistoryMutex | SeqMessageHistoryMutex | RecordMessagesMutex
    | InboundMessageBufferMutex | OutboundMessageBufferMutex | DeliveryQueueMutex | DeliveredMessageMutex

  function Rank(m: Mutex): nat {
    match m
    case DataHistoryMutex => 0
    case AckHistoryMutex => 1
    case SeqMessageHistoryMutex => 2
    case RecordMessagesMutex => 3
    case InboundMessageBufferMutex => 4
    case OutboundMessageBufferMutex => 5
    case DeliveryQueueMutex => 6
    case DeliveredMessageMutex => 7
  }

  /** The data that threads share. */
  datatype Container =
    | DataHistory | AckHistory | SeqMessageHistory | RecordMessages
    | InboundMessageBuffer | OutboundMessageBuffer | DeliveryQueue | DeliveredMessage

  function Guard(c: Container): Mutex {
    match c
    case DataHistory => DataHistoryMutex
    case AckHistory => AckHistoryMutex
    case SeqMessageHistory => SeqMessageHistoryMutex
    case RecordMessages => RecordMessagesMutex
    case InboundMessageBuffer => InboundMessageBufferMutex
    case OutboundMessageBuffer => OutboundMessageBufferMutex
    case DeliveryQueue => DeliveryQueueMutex
    case DeliveredMessage => DeliveredMessageMutex
  }

  datatype Op = Lock(m: Mutex) | Unlock(m: Mutex) | Access(c: Container)

  predicate Above(m: Mutex, held: set<Mutex>) {
    forall h :: h in held ==> Rank(h) < Rank(m)
  }

  datatype Outcome = Broken | Holds(held: set<Mutex>)

  /** What is held after `ops`, or `Broken` if a mutex is taken out of order or released unheld, or
      data are touched without their mutex. */
  function Exec(held: set<Mutex>, ops: seq<Op>): Outcome
    decreases |ops|
  {
    if ops == [] then Holds(held)
    else
      match ops[0]
      case Lock(m) => if Above(m, held) then Exec(held + {m}, ops[1..]) else Broken
      case Unlock(m) => if m in held then Exec(held - {m}, ops[1..]) else Broken
      case Access(c) => if Guard(c) in held then Exec(held, ops[1..]) else Broken
  }

  lemma {:induction false} ExecConcat(held: set<Mutex>, a: seq<Op>, b: seq<Op>)
    ensures Exec(held, a + b) == match Exec(held, a) case Broken => Broken case Holds(h) => Exec(h, b)
    decreases |a|
  {
    if a == [] {
      assert a + b == b;
    } else {
      assert (a + b)[1..] == a[1..] + b;
      match a[0]
      case Lock(m) => ExecConcat(held + {m}, a[1..], b);
      case Unlock(m) => ExecConcat(held - {m}, a[1..], b);
      case Access(c) => ExecConcat(held, a[1..], b);
    }
  }

  /** Run while `held` is held, `ops` keeps to the order and releases all it takes. */
  predicate Balanced(held: set<Mutex>, ops: seq<Op>) {
    Exec(held, ops) == Holds(held)
  }

  lemma Then(held: set<Mutex>, a: seq<Op>, b: seq<Op>)
    requires Balanced(held, a) && Balanced(held, b)
    ensures Balanced(held, a + b)
  {
    ExecConcat(held, a, b);
  }

  function Guarded(m: Mutex, body: seq<Op>): seq<Op> {
    [Lock(m)] + (body + [Unlock(m)])
  }

  lemma Within(held: set<Mutex>, m: Mutex, body: seq<Op>)
    requires Above(m, held) && Balanced(held + {m}, body)
    ensures Balanced(held, Guarded(m, body))
  {
    assert Guarded(m, body)[1..] == body + [Unlock(m)];
    ExecConcat(held + {m}, body, [Unlock(m)]);
    assert [Unlock(m)][1..] == [];
    assert held + {m} - {m} == held;
  }

  lemma AccessAlone(held: set<Mutex>, c: Container)
    requires Guard(c) in held
    ensures Balanced(held, [Access(c)])
  {
    assert [Access(c)][1..] == [];
  }

  // ---------- the routines ----------

  /** A packet is dropped, sent, or sent and recorded for a snapshot. */
  datatype Sending = Dropped | Plain | Recorded

  /** Touching a container under its own mutex. */
  function Using(c: Container): seq<Op> { Guarded(Guard(c), [Access(c)]) }

  /** Touching a container and going on while its mutex is held. */
  function Keeping(c: Container, body: seq<Op>): seq<Op> { Guarded(Guard(c), [Access(c)] + body) }

  function SendOps(s: Sending): seq<Op> {
    match s
    case Dropped => []
    case Plain => Using(RecordMessages)
    case Recorded => Keeping(RecordMessages, Using(OutboundMessageBuffer))
  }

  function BroadcastOps(ss: seq<Sending>): seq<Op> {
    if ss == [] then [] else SendOps(ss[0]) + BroadcastOps(ss[1..])
  }

  function DeliverOps(printed: bool): seq<Op> {
    Keeping(DeliveryQueue, Using(DeliveredMessage)) + (if printed then Using(DeliveredMessage) else [])
  }

  /** The routines of all threads, with the branches that decide what they lock. */
  datatype Routine =
    | ReceivePacket(recorded: bool)
    | HandleData(duplicate: bool, reply: Sending)
    | HandleAckFinal(sends: seq<Sending>, printed: bool)
    | HandleAckDuplicate(reply: Sending)
    | HandleAckOther
    | HandleSeqKnown
    | HandleSeqNew(printed: bool)
    | MulticastData(sends: seq<Sending>)
    | DataWatchdog(resend: Sending)
    | AckWatchdog(resend: Sending)
    | RecordLocalState
    | SwitchRecording
    | DrainBuffers

  function Ops(r: Routine): seq<Op> {
    match r
    case ReceivePacket(recorded) =>
      Keeping(RecordMessages, if recorded then Using(InboundMessageBuffer) else [])
    case HandleData(duplicate, reply) => (if duplicate then [] else Using(DeliveryQueue)) + SendOps(reply)
    case HandleAckFinal(sends, printed) =>
      Keeping(AckHistory,
              Using(SeqMessageHistory) + (BroadcastOps(sends) + (Using(DeliveryQueue) + DeliverOps(printed))))
    case HandleAckDuplicate(reply) => Keeping(AckHistory, Keeping(SeqMessageHistory, SendOps(reply)))
    case HandleAckOther => Using(AckHistory)
    case HandleSeqKnown => Using(DeliveryQueue) + Using(DeliveredMessage)
    case HandleSeqNew(printed) =>
      Using(DeliveryQueue) + (Guarded(DeliveredMessageMutex, []) + (Using(SeqMessageHistory) + DeliverOps(printed)))
    case MulticastData(sends) =>
      Using(DataHistory) + (Using(AckHistory) + (Using(DeliveryQueue) + BroadcastOps(sends)))
    case DataWatchdog(resend) => Keeping(AckHistory, SendOps(resend))
    case AckWatchdog(resend) => Using(SeqMessageHistory) + SendOps(resend)
    case RecordLocalState => Using(DeliveryQueue) + Using(DeliveredMessage)
    case SwitchRecording => Using(RecordMessages)
    case DrainBuffers => Using(InboundMessageBuffer) + Using(OutboundMessageBuffer)
  }

  // ---------- what they touch ----------

  ghost function Touched(ops: seq<Op>): set<Container> {
    set i | 0 <= i < |ops| && ops[i].Access? :: ops[i].c
  }

  lemma TouchedConcat(a: seq<Op>, b: seq<Op>)
    ensures Touched(a + b) == Touched(a) + Touched(b)
  {
    forall c | c in Touched(a) + Touched(b) ensures c in Touched(a + b) {
      if c in Touched(a) {
        var i :| 0 <= i < |a| && a[i].Access? && a[i].c == c;
        assert (a + b)[i] == a[i];
      } else {
        var i :| 0 <= i < |b| && b[i].Access? && b[i].c == c;
        assert (a + b)[|a| + i] == b[i];
      }
    }
  }

  lemma TouchedGuarded(m: Mutex, body: seq<Op>)
    ensures Touched(Guarded(m, body)) == Touched(body)
  {
    TouchedConcat([Lock(m)], body + [Unlock(m)]);
    TouchedConcat(body, [Unlock(m)]);
    assert Touched([Lock(m)]) == {} && Touched([Unlock(m)]) == {};
  }

  lemma TouchedKeeping(c: Container, body: seq<Op>)
    ensures Touched(Keeping(c, body)) == {c} + Touched(body)
    ensures Touched(Using(c)) == {c}
  {
    TouchedGuarded(Guard(c), [Access(c)] + body);
    TouchedGuarded(Guard(c), [Access(c)]);
    TouchedConcat([Access(c)], body);
    assert [Access(c)][0] == Access(c);
    assert Touched([Access(c)]) == {c};
  }

  function SendTouches(s: Sending): set<Container> {
    match s
    case Dropped => {}
    case Plain => {RecordMessages}
    case Recorded => {RecordMessages, OutboundMessageBuffer}
  }

  function BroadcastTouches(ss: seq<Sending>): set<Container> {
    if ss == [] then {} else SendTouches(ss[0]) + BroadcastTouches(ss[1..])
  }

  /** What each routine reads or writes. */
  function Touches(r: Routine): set<Container> {
    match r
    case ReceivePacket(recorded) => {RecordMessages} + if recorded then {InboundMessageBuffer} else {}
    case HandleData(duplicate, reply) => (if duplicate then {} else {DeliveryQueue}) + SendTouches(reply)
    case HandleAckFinal(sends, _) =>
      {AckHistory, SeqMessageHistory, DeliveryQueue, DeliveredMessage} + BroadcastTouches(sends)
    case HandleAckDuplicate(reply) => {AckHistory, SeqMessageHistory} + SendTouches(reply)
    case HandleAckOther => {AckHistory}
    case HandleSeqKnown => {DeliveryQueue, DeliveredMessage}
    case HandleSeqNew(_) => {DeliveryQueue, DeliveredMessage, SeqMessageHistory}
    case MulticastData(sends) => {DataHistory, AckHistory, DeliveryQueue} + BroadcastTouches(sends)
    case DataWatchdog(resend) => {AckHistory} + SendTouches(resend)
    case AckWatchdog(resend) => {SeqMessageHistory} + SendTouches(resend)
    case RecordLocalState => {DeliveryQueue, DeliveredMessage}
    case SwitchRecording => {RecordMessages}
    case DrainBuffers => {InboundMessageBuffer, OutboundMessageBuffer}
  }

  lemma SendTouched(s: Sending)
    ensures Touched(SendOps(s)) == SendTouches(s)
  {
    hide Touched, Using, Keeping;
    NothingTouched();
    match s
    case Dropped =>
    case Plain => TouchedKeeping(RecordMessages, []);
    case Recorded =>
      TouchedKeeping(OutboundMessageBuffer, []);
      TouchedKeeping(RecordMessages, Using(OutboundMessageBuffer));
  }

  lemma NothingTouched()
    ensures Touched([]) == {}
  {
  }

  lemma {:induction false} BroadcastTouched(ss: seq<Sending>)
    ensures Touched(BroadcastOps(ss)) == BroadcastTouches(ss)
  {
    hide Touched, SendOps, SendTouches;
    NothingTouched();
    if ss != [] {
      SendTouched(ss[0]);
      BroadcastTouched(ss[1..]);
      TouchedConcat(SendOps(ss[0]), BroadcastOps(ss[1..]));
    }
  }

  lemma DeliverTouched(printed: bool)
    ensures Touched(DeliverOps(printed)) == {DeliveryQueue, DeliveredMessage}
  {
    hide Touched, Using, Keeping;
    NothingTouched();
    TouchedKeeping(DeliveredMessage, []);
    TouchedKeeping(DeliveryQueue, Using(DeliveredMessage));
    TouchedConcat(Keeping(DeliveryQueue, Using(DeliveredMessage)), if printed then Using(DeliveredMessage) else []);
  }

  /** The operations of a routine touch exactly what the routine reads or writes. */
  lemma OpsTouch(r: Routine)
    ensures Touched(Ops(r)) == Touches(r)
  {
    hide Touched, Using, Keeping, Guarded, SendOps, SendTouches, BroadcastOps, BroadcastTouches, DeliverOps;
    NothingTouched();
    forall c, body: seq<Op> ensures Touched(Keeping(c, body)) == {c} + Touched(body) { TouchedKeeping(c, body); }
    forall c ensures Touched(Using(c)) == {c} { TouchedKeeping(c, []); }
    forall a: seq<Op>, b: seq<Op> ensures Touched(a + b) == Touched(a) + Touched(b) { TouchedConcat(a, b); }
    forall s ensures Touched(SendOps(s)) == SendTouches(s) { SendTouched(s); }
    match r
    case HandleAckFinal(sends, printed) =>
      BroadcastTouched(sends);
      DeliverTouched(printed);
    case HandleSeqNew(printed) =>
      TouchedGuarded(DeliveredMessageMutex, []);
      DeliverTouched(printed);
    case MulticastData(sends) => BroadcastTouched(sends);
    case _ =>
  }

  // ---------- every routine keeps to the rules ----------

  lemma UsingBalanced(held: set<Mutex>, c: Container)
    requires Above(Guard(c), held)
    ensures Balanced(held, Using(c))
  {
    AccessAlone(held + {Guard(c)}, c);
    Within(held, Guard(c), [Access(c)]);
  }

  lemma KeepingBalanced(held: set<Mutex>, c: Container, body: seq<Op>)
    requires Above(Guard(c), held) && Balanced(held + {Guard(c)}, body)
    ensures Balanced(held, Keeping(c, body))
  {
    hide Balanced, Guarded;
    AccessAlone(held + {Guard(c)}, c);
    Then(held + {Guard(c)}, [Access(c)], body);
    Within(held, Guard(c), [Access(c)] + body);
  }

  lemma SendBalanced(held: set<Mutex>, s: Sending)
    requires Above(RecordMessagesMutex, held)
    ensures Balanced(held, SendOps(s))
  {
    hide Balanced, Using, Keeping;
    match s
    case Dropped => NoOps(held);
    case Plain => UsingBalanced(held, RecordMessages);
    case Recorded =>
      UsingBalanced(held + {RecordMessagesMutex}, OutboundMessageBuffer);
      KeepingBalanced(held, RecordMessages, Using(OutboundMessageBuffer));
  }

  lemma {:induction false} BroadcastBalanced(held: set<Mutex>, ss: seq<Sending>)
    requires Above(RecordMessagesMutex, held)
    ensures Balanced(held, BroadcastOps(ss))
  {
    hide Balanced, SendOps;
    if ss != [] {
      SendBalanced(held, ss[0]);
      BroadcastBalanced(held, ss[1..]);
      Then(held, SendOps(ss[0]), BroadcastOps(ss[1..]));
    } else {
      NoOps(held);
    }
  }

  lemma DeliverBalanced(held: set<Mutex>, printed: bool)
    requires Above(DeliveryQueueMutex, held)
    ensures Balanced(held, DeliverOps(printed))
  {
    hide Balanced, Using, Keeping;
    UsingBalanced(held + {DeliveryQueueMutex}, DeliveredMessage);
    KeepingBalanced(held, DeliveryQueue, Using(DeliveredMessage));
    UsingBalanced(held, DeliveredMessage);
    NoOps(held);
    Then(held, Keeping(DeliveryQueue, Using(DeliveredMessage)), if printed then Using(DeliveredMessage) else []);
  }

  /** Every routine keeps to the order, releases all it takes and holds the mutex of all it touches. */
  lemma RoutineBalanced(r: Routine)
    ensures Balanced({}, Ops(r))
  {
    hide Balanced, Guarded, Using, Keeping, SendOps, BroadcastOps, DeliverOps;
    forall c, held: set<Mutex> | Above(Guard(c), held) ensures Balanced(held, Using(c)) { UsingBalanced(held, c); }
    forall held: set<Mutex> ensures Balanced(held, []) { NoOps(held); }
    forall m: Mutex ensures {} + {m} == {m} {}
    match r
    case ReceivePacket(recorded) =>
      KeepingBalanced({}, RecordMessages, if recorded then Using(InboundMessageBuffer) else []);
    case HandleData(duplicate, reply) =>
      SendBalanced({}, reply);
      Then({}, if duplicate then [] else Using(DeliveryQueue), SendOps(reply));
    case HandleAckFinal(sends, printed) =>
      var a := {AckHistoryMutex};
      BroadcastBalanced(a, sends);
      DeliverBalanced(a, printed);
      Then(a, Using(DeliveryQueue), DeliverOps(printed));
      Then(a, BroadcastOps(sends), Using(DeliveryQueue) + DeliverOps(printed));
      Then(a, Using(SeqMessageHistory), BroadcastOps(sends) + (Using(DeliveryQueue) + DeliverOps(printed)));
      KeepingBalanced({}, AckHistory,
                      Using(SeqMessageHistory) + (BroadcastOps(sends) + (Using(DeliveryQueue) + DeliverOps(printed))));
    case HandleAckDuplicate(reply) =>
      SendBalanced({AckHistoryMutex} + {SeqMessageHistoryMutex}, reply);
      KeepingBalanced({AckHistoryMutex}, SeqMessageHistory, SendOps(reply));
      KeepingBalanced({}, AckHistory, Keeping(SeqMessageHistory, SendOps(reply)));
    case HandleAckOther =>
    case HandleSeqKnown => Then({}, Using(DeliveryQueue), Using(DeliveredMessage));
    case HandleSeqNew(printed) =>
      DeliverBalanced({}, printed);
      Within({}, DeliveredMessageMutex, []);
      Then({}, Using(SeqMessageHistory), DeliverOps(printed));
      Then({}, Guarded(DeliveredMessageMutex, []), Using(SeqMessageHistory) + DeliverOps(printed));
      Then({}, Using(DeliveryQueue),
           Guarded(DeliveredMessageMutex, []) + (Using(SeqMessageHistory) + DeliverOps(printed)));
    case MulticastData(sends) =>
      BroadcastBalanced({}, sends);
      Then({}, Using(DeliveryQueue), BroadcastOps(sends));
      Then({}, Using(AckHistory), Using(DeliveryQueue) + BroadcastOps(sends));
      Then({}, Using(DataHistory), Using(AckHistory) + (Using(DeliveryQueue) + BroadcastOps(sends)));
    case DataWatchdog(resend) =>
      SendBalanced({AckHistoryMutex}, resend);
      KeepingBalanced({}, AckHistory, SendOps(resend));
    case AckWatchdog(resend) =>
      SendBalanced({}, resend);
      Then({}, Using(SeqMessageHistory), SendOps(resend));
    case RecordLocalState => Then({}, Using(DeliveryQueue), Using(DeliveredMessage));
    case SwitchRecording =>
    case DrainBuffers => Then({}, Using(InboundMessageBuffer), Using(OutboundMessageBuffer));
  }

  lemma NoOps(held: set<Mutex>)
    ensures Balanced(held, [])
  {
  }

  // ---------- critical sections ----------

  /** Every container has a mutex of its own. */
  lemma OwnMutex(c: Container, d: Container)
    ensures Guard(c) == Guard(d) <==> c == d
  {
  }

  /** Whatever `ops` touch, they touch while `m` is held; `held` says whether it is at the start. */
  predicate Inside(m: Mutex, held: bool, ops: seq<Op>)
    decreases |ops|
  {
    ops == [] ||
    match ops[0]
    case Lock(x) => Inside(m, held || x == m, ops[1..])
    case Unlock(x) => Inside(m, held && x != m, ops[1..])
    case Access(_) => held && Inside(m, held, ops[1..])
  }

  predicate Keeps(m: Mutex, ops: seq<Op>) {
    forall i :: 0 <= i < |ops| ==> ops[i] != Unlock(m)
  }

  lemma {:induction false} InsideWhileHeld(m: Mutex, body: seq<Op>)
    requires Keeps(m, body)
    ensures Inside(m, true, body + [Unlock(m)])
    decreases |body|
  {
    var ops := body + [Unlock(m)];
    if body == [] {
      assert ops == [Unlock(m)] && ops[1..] == [];
    } else {
      assert ops[0] == body[0] && ops[1..] == body[1..] + [Unlock(m)] && body[0] != Unlock(m);
      InsideWhileHeld(m, body[1..]);
    }
  }

  lemma InsideGuarded(m: Mutex, body: seq<Op>)
    requires Keeps(m, body)
    ensures Inside(m, false, Guarded(m, body))
  {
    InsideWhileHeld(m, body);
    assert Guarded(m, body)[1..] == body + [Unlock(m)];
  }

  lemma KeepsConcat(m: Mutex, a: seq<Op>, b: seq<Op>)
    requires Keeps(m, a) && Keeps(m, b)
    ensures Keeps(m, a + b)
  {
  }

  lemma KeepsOther(m: Mutex, x: Mutex, body: seq<Op>)
    requires m != x && Keeps(m, body)
    ensures Keeps(m, Guarded(x, body))
  {
  }

  lemma KeepsUsing(m: Mutex, c: Container, body: seq<Op>)
    requires m != Guard(c) && Keeps(m, body)
    ensures Keeps(m, Keeping(c, body)) && Keeps(m, Using(c))
  {
    KeepsOther(m, Guard(c), [Access(c)] + body);
    KeepsOther(m, Guard(c), [Access(c)]);
  }

  lemma KeepsSending(m: Mutex, s: Sending)
    requires m != RecordMessagesMutex && m != OutboundMessageBufferMutex
    ensures Keeps(m, SendOps(s))
  {
    hide Keeps, Using, Keeping;
    assert Keeps(m, []) by { KeepsNothing(m); }
    KeepsUsing(m, OutboundMessageBuffer, []);
    KeepsUsing(m, RecordMessages, Using(OutboundMessageBuffer));
    KeepsUsing(m, RecordMessages, []);
  }

  lemma KeepsNothing(m: Mutex)
    ensures Keeps(m, [])
  {
  }

  lemma {:induction false} KeepsBroadcasting(m: Mutex, ss: seq<Sending>)
    requires m != RecordMessagesMutex && m != OutboundMessageBufferMutex
    ensures Keeps(m, BroadcastOps(ss))
  {
    hide Keeps, SendOps;
    KeepsNothing(m);
    if ss != [] {
      KeepsSending(m, ss[0]);
      KeepsBroadcasting(m, ss[1..]);
      KeepsConcat(m, SendOps(ss[0]), BroadcastOps(ss[1..]));
    }
  }

  lemma KeepsDelivering(m: Mutex, printed: bool)
    requires m != DeliveryQueueMutex && m != DeliveredMessageMutex
    ensures Keeps(m, DeliverOps(printed))
  {
    hide Keeps, Using, Keeping;
    KeepsNothing(m);
    KeepsUsing(m, DeliveredMessage, []);
    KeepsUsing(m, DeliveryQueue, Using(DeliveredMessage));
    KeepsConcat(m, Keeping(DeliveryQueue, Using(DeliveredMessage)), if printed then Using(DeliveredMessage) else []);
  }

  lemma InsideKeeping(c: Container, body: seq<Op>)
    requires Keeps(Guard(c), body)
    ensures Inside(Guard(c), false, Keeping(c, body))
  {
    KeepsConcat(Guard(c), [Access(c)], body);
    InsideGuarded(Guard(c), [Access(c)] + body);
  }

  /** An ack is handled, and a data watchdog decides and resends, without letting go of the ack history;
      a packet is buffered without letting go of the flag that says so; and what leaves the queue joins
      the delivered list without letting go of the queue. */
  lemma CriticalSections(r: Routine)
    ensures r.HandleAckFinal? || r.HandleAckDuplicate? || r.HandleAckOther? || r.DataWatchdog? ==>
              Inside(AckHistoryMutex, false, Ops(r))
    ensures r.ReceivePacket? ==> Inside(RecordMessagesMutex, false, Ops(r))
    ensures Inside(DeliveryQueueMutex, false, DeliverOps(false))
  {
    hide Keeps, Inside, Using, Keeping, SendOps, BroadcastOps;
    var m := AckHistoryMutex;
    forall x ensures Keeps(x, []) { KeepsNothing(x); }
    match r {
      case HandleAckFinal(sends, printed) =>
        KeepsUsing(m, SeqMessageHistory, []);
        KeepsUsing(m, DeliveryQueue, []);
        KeepsBroadcasting(m, sends);
        KeepsDelivering(m, printed);
        hide DeliverOps;
        KeepsConcat(m, Using(DeliveryQueue), DeliverOps(printed));
        KeepsConcat(m, BroadcastOps(sends), Using(DeliveryQueue) + DeliverOps(printed));
        var rest := BroadcastOps(sends) + (Using(DeliveryQueue) + DeliverOps(printed));
        KeepsConcat(m, Using(SeqMessageHistory), rest);
        InsideKeeping(AckHistory, Using(SeqMessageHistory) + rest);
      case HandleAckDuplicate(reply) =>
        KeepsSending(m, reply);
        KeepsUsing(m, SeqMessageHistory, SendOps(reply));
        InsideKeeping(AckHistory, Keeping(SeqMessageHistory, SendOps(reply)));
      case HandleAckOther => InsideUsing(AckHistory);
      case DataWatchdog(resend) =>
        KeepsSending(m, resend);
        InsideKeeping(AckHistory, SendOps(resend));
      case ReceivePacket(recorded) =>
        KeepsUsing(RecordMessagesMutex, InboundMessageBuffer, []);
        InsideKeeping(RecordMessages, if recorded then Using(InboundMessageBuffer) else []);
      case _ =>
    }
    DeliveringIsInside();
  }

  lemma InsideUsing(c: Container)
    ensures Inside(Guard(c), false, Using(c))
  {
    InsideGuarded(Guard(c), [Access(c)]);
  }

  lemma DeliveringIsInside()
    ensures Inside(DeliveryQueueMutex, false, DeliverOps(false))
  {
    hide Inside, Keeps, Using, Keeping;
    KeepsNothing(DeliveryQueueMutex);
    KeepsUsing(DeliveryQueueMutex, DeliveredMessage, []);
    InsideKeeping(DeliveryQueue, Using(DeliveredMessage));
    assert DeliverOps(false) == Keeping(DeliveryQueue, Using(DeliveredMessage));
  }

  // ---------- threads ----------

  datatype Thread = Thread(held: set<Mutex>, todo: seq<Op>)

  type System = map<nat, Thread>

  function Program(rs: seq<Routine>): seq<Op> {
    if rs == [] then [] else Ops(rs[0]) + Program(rs[1..])
  }

  /** Any number of threads, each about to run any routines one after another. */
  ghost predicate Start(s: System) {
    forall t :: t in s ==> s[t].held == {} && exists rs :: s[t].todo == Program(rs)
  }

  predicate CanStep(s: System, t: nat) {
    t in s && s[t].todo != [] &&
    (s[t].todo[0].Lock? ==> forall u :: u in s ==> s[t].todo[0].m !in s[u].held)
  }

  function Step(s: System, t: nat): System
    requires CanStep(s, t)
  {
    var op := s[t].todo[0];
    var held := match op case Lock(m) => s[t].held + {m} case Unlock(m) => s[t].held - {m} case Access(_) => s[t].held;
    s[t := Thread(held, s[t].todo[1..])]
  }

  ghost predicate IsRun(run: seq<System>) {
    && |run| > 0 && Start(run[0])
    && forall i :: 0 <= i < |run| - 1 ==> exists t :: CanStep(run[i], t) && run[i + 1] == Step(run[i], t)
  }

  ghost predicate Ok(s: System) {
    && (forall t :: t in s ==> Exec(s[t].held, s[t].todo) == Holds({}))
    && (forall t, u :: t in s && u in s && t != u ==> s[t].held !! s[u].held)
  }

  lemma {:induction false} ProgramBalanced(rs: seq<Routine>)
    ensures Balanced({}, Program(rs))
  {
    if rs != [] {
      RoutineBalanced(rs[0]);
      ProgramBalanced(rs[1..]);
      Then({}, Ops(rs[0]), Program(rs[1..]));
    }
  }

  lemma {:induction false} RunOk(run: seq<System>, i: nat)
    requires IsRun(run) && i < |run|
    ensures Ok(run[i])
  {
    if i == 0 {
      forall t | t in run[0] ensures Exec(run[0][t].held, run[0][t].todo) == Holds({}) {
        var rs :| run[0][t].todo == Program(rs);
        ProgramBalanced(rs);
      }
    } else {
      RunOk(run, i - 1);
      assert 0 <= i - 1 < |run| - 1;
      var t :| CanStep(run[i - 1], t) && run[i - 1 + 1] == Step(run[i - 1], t);
      StepOk(run[i - 1], t);
    }
  }

  lemma StepOk(s: System, t: nat)
    requires Ok(s) && CanStep(s, t)
    ensures Ok(Step(s, t))
  {
  }

  predicate AboutToTouch(s: System, t: nat, c: Container) {
    t in s && s[t].todo != [] && s[t].todo[0] == Access(c)
  }

  /** In every state of every run, a thread that is about to touch shared data holds their mutex. */
  lemma AccessIsGuarded(run: seq<System>, i: nat, t: nat, c: Container)
    requires IsRun(run) && i < |run| && AboutToTouch(run[i], t, c)
    ensures Guard(c) in run[i][t].held
  {
    hide IsRun;
    RunOk(run, i);
    assert Exec(run[i][t].held, run[i][t].todo) == Holds({});
  }

  /** No data race: two threads are never about to touch the same data. */
  lemma NoDataRace(run: seq<System>, i: nat, t: nat, u: nat, c: Container)
    requires IsRun(run) && i < |run| && AboutToTouch(run[i], t, c) && AboutToTouch(run[i], u, c)
    ensures t == u
  {
    hide IsRun;
    AccessIsGuarded(run, i, t, c);
    AccessIsGuarded(run, i, u, c);
    RunOk(run, i);
  }

  /** The highest mutex held by anybody, and its holder. */
  lemma HighestHeld(s: System, m: Mutex, t: nat) returns (m': Mutex, t': nat)
    requires t in s && m in s[t].held
    ensures t' in s && m' in s[t'].held
    ensures forall u, h :: u in s && h in s[u].held ==> Rank(h) <= Rank(m')
    decreases 8 - Rank(m)
  {
    if u, h :| u in s && h in s[u].held && Rank(h) > Rank(m) {
      m', t' := HighestHeld(s, h, u);
    } else {
      m', t' := m, t;
    }
  }

  /** Thread `t` wants a mutex that thread `u` holds. */
  predicate Waits(s: System, t: nat, u: nat) {
    t in s && u in s && s[t].todo != [] && s[t].todo[0].Lock? && s[t].todo[0].m in s[u].held
  }

  function Wanted(s: System, t: nat): nat {
    if t in s && s[t].todo != [] && s[t].todo[0].Lock? then Rank(s[t].todo[0].m) else 0
  }

  lemma WantsMore(s: System, t: nat, u: nat, v: nat)
    requires Ok(s) && Waits(s, t, u) && Waits(s, u, v)
    ensures Wanted(s, t) < Wanted(s, u)
  {
    assert Exec(s[u].held, s[u].todo) == Holds({});
    hide Ok, Rank;
  }

  lemma {:induction false} ChainRises(s: System, chain: seq<nat>, i: nat)
    requires Ok(s) && i + 1 < |chain| && forall k :: 0 <= k < |chain| - 1 ==> Waits(s, chain[k], chain[k + 1])
    ensures Wanted(s, chain[0]) + i <= Wanted(s, chain[i])
  {
    hide Ok, Wanted, Waits;
    if i > 0 {
      ChainRises(s, chain, i - 1);
      assert Waits(s, chain[i - 1], chain[i - 1 + 1]) && Waits(s, chain[i], chain[i + 1]);
      WantsMore(s, chain[i - 1], chain[i], chain[i + 1]);
    }
  }

  /** No circular wait: in every state of every run, following from each thread the one it waits for
      never leads back to the start. */
  lemma NoCircularWait(run: seq<System>, i: nat, chain: seq<nat>)
    requires IsRun(run) && i < |run| && |chain| >= 2
    requires forall k :: 0 <= k < |chain| - 1 ==> Waits(run[i], chain[k], chain[k + 1])
    ensures chain[0] != chain[|chain| - 1]
  {
    hide IsRun, Ok, Waits, Wanted;
    RunOk(run, i);
    var n := |chain| - 2;
    ChainRises(run[i], chain, n);
    assert Waits(run[i], chain[0], chain[0 + 1]) && Waits(run[i], chain[n], chain[n + 1]);
    if chain[0] == chain[n + 1] { WantsMore(run[i], chain[n], chain[n + 1], chain[1]); }
  }

  /** No deadlock: in every state of every run, if a thread has something left to do, then some
      thread can go on. */
  lemma SomebodyCanStep(run: seq<System>, i: nat, t: nat) returns (u: nat)
    requires IsRun(run) && i < |run| && t in run[i] && run[i][t].todo != []
    ensures CanStep(run[i], u)
  {
    RunOk(run, i);
    var s := run[i];
    hide IsRun;
    if exists v, h :: v in s && h in s[v].held {
      var v, h :| v in s && h in s[v].held;
      var m', t' := HighestHeld(s, h, v);
      assert Exec(s[t'].held, s[t'].todo) == Holds({});
      u := t';
    } else {
      u := t;
    }
  }
}
