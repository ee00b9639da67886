/** The snapshot algorithm over several processes: markers spread, every process records its state
    once. Packets may be lost and may overtake each other and the markers; the results say exactly
    when the recorded states and channels form a consistent cut all the same. */
module Cut {
  import opened Messages
  import opened Recording

  /** A packet sent once from one process to another; `id` tells equal payloads apart. */
  datatype Letter = Letter(id: nat, payload: Payload)

  datatype Item = Mail(letter: Letter) | Marker

  /** One direction between two processes. `items` are in flight, in the order in which they were
      sent; `sent` and `received` are the packets that went in and came out so far; the other fields
      are what the two ends recorded. */
  datatype Channel = Channel(
    items: seq<Item>,
    sent: seq<Letter>,
    received: seq<Letter>,
    sentAtRecording: seq<Letter>,
    receivedAtRecording: seq<Letter>,
    recordedInTransit: seq<Letter>)

  /** `recorded` are the processes that have recorded their state (and sent their markers);
      `markersFrom[q]` lists whose markers `q` has received. */
  datatype Snapshot = Snapshot(
    hosts: set<nat>,
    channels: map<(nat, nat), Channel>,
    recorded: set<nat>,
    markersFrom: map<nat, seq<nat>>)

  ghost predicate Init(w: Snapshot) {
    && |w.hosts| >= 2
    && (forall p, q :: (p, q) in w.channels <==> p in w.hosts && q in w.hosts && p != q)
    && (forall c :: c in w.channels ==> w.channels[c] == Channel([], [], [], [], [], []))
    && w.recorded == {}
    && w.markersFrom.Keys == w.hosts
    && (forall q :: q in w.hosts ==> w.markersFrom[q] == [])
  }

  /** Process `p` records its state and sends a marker to everybody, in one step. */
  function RecordAt(p: nat, c: (nat, nat), ch: Channel): Channel {
    if c.0 == p then MarkSent(ch) else if c.1 == p then MarkReceived(ch) else ch
  }

  function Record(w: Snapshot, p: nat): (r: Snapshot)
    ensures r.channels.Keys == w.channels.Keys && r.markersFrom == w.markersFrom && r.hosts == w.hosts
    ensures r.recorded == w.recorded + {p}
    ensures forall c :: c in w.channels && c.1 == p && c.0 != p ==> r.channels[c].items == w.channels[c].items
  {
    w.(recorded := w.recorded + {p},
       channels := map c | c in w.channels :: RecordAt(p, c, w.channels[c]))
  }

  /** A step of the system. `at` is the position in the channel of the item that arrives or is lost; a
      packet that `stays` in flight arrives again. Markers are neither lost nor repeated: they travel
      over TCP. */
  datatype Step =
    | Send(p: nat, q: nat, payload: Payload)
    | Initiate(p: nat)
    | ReceivePacket(p: nat, q: nat, at: nat, stays: bool)
    | LosePacket(p: nat, q: nat, at: nat)
    | ReceiveMarker(p: nat, q: nat, at: nat)

  function Without(items: seq<Item>, at: nat): seq<Item>
    requires at < |items|
  {
    items[..at] + items[at + 1..]
  }

  function Sent(ch: Channel, x: Payload): Channel {
    var l := Letter(|ch.sent|, x);
    ch.(items := ch.items + [Mail(l)], sent := ch.sent + [l])
  }

  /** `recording`: the receiving end has recorded and waits for the marker of the sending end. */
  function Received(ch: Channel, at: nat, recording: bool, stays: bool): Channel
    requires at < |ch.items| && ch.items[at].Mail?
  {
    var l := ch.items[at].letter;
    ch.(items := if stays then ch.items else Without(ch.items, at), received := ch.received + [l],
        recordedInTransit := if recording then ch.recordedInTransit + [l] else ch.recordedInTransit)
  }

  function Lost(ch: Channel, at: nat): Channel
    requires at < |ch.items|
  {
    ch.(items := Without(ch.items, at))
  }

  /** The marker leaves the channel and is noted. */
  function TakeMarker(w: Snapshot, p: nat, q: nat, at: nat): Snapshot
    requires (p, q) in w.channels && q in w.markersFrom && at < |w.channels[(p, q)].items|
  {
    w.(channels := w.channels[(p, q) := Lost(w.channels[(p, q)], at)],
       markersFrom := w.markersFrom[q := w.markersFrom[q] + [p]])
  }

  /** There is an item of the kind that `step` takes where it takes it. */
  predicate HasItem(w: Snapshot, p: nat, q: nat, at: nat, marker: bool) {
    && (p, q) in w.channels && q in w.markersFrom
    && at < |w.channels[(p, q)].items| && w.channels[(p, q)].items[at].Marker? == marker
  }

  ghost predicate Next(w: Snapshot, step: Step, w': Snapshot) {
    match step
    case Send(p, q, x) =>
      && (p, q) in w.channels && Source(x) == p
      && w' == w.(channels := w.channels[(p, q) := Sent(w.channels[(p, q)], x)])
    case Initiate(p) =>
      p in w.hosts && w.recorded == {} && w' == Record(w, p)
    case ReceivePacket(p, q, at, stays) =>
      && HasItem(w, p, q, at, false)
      && var recording := q in w.recorded && p !in w.markersFrom[q];
         w' == w.(channels := w.channels[(p, q) := Received(w.channels[(p, q)], at, recording, stays)])
    case LosePacket(p, q, at) =>
      && HasItem(w, p, q, at, false)
      && w' == w.(channels := w.channels[(p, q) := Lost(w.channels[(p, q)], at)])
    case ReceiveMarker(p, q, at) =>
      && HasItem(w, p, q, at, true)
      && w' == TakeMarker(if q in w.recorded then w else Record(w, q), p, q, at)
  }

  /** A run is the sequence of its states together with the steps between them. */
  ghost predicate IsRun(run: seq<Snapshot>, steps: seq<Step>) {
    && |run| == |steps| + 1 && Init(run[0])
    && forall i :: 0 <= i < |steps| ==> Next(run[i], steps[i], run[i + 1])
  }

  ghost predicate Reachable(w: Snapshot) {
    exists run, steps :: IsRun(run, steps) && run[|steps|] == w
  }

  // ---------- items in flight ----------

  function Letters(items: seq<Item>): set<Letter> {
    set i | 0 <= i < |items| && items[i].Mail? :: items[i].letter
  }

  function MarkerCount(items: seq<Item>): nat {
    if items == [] then 0 else (if items[0].Marker? then 1 else 0) + MarkerCount(items[1..])
  }

  /** The items sent before the first marker. */
  function Before(items: seq<Item>): seq<Item> {
    if items == [] || items[0].Marker? then [] else [items[0]] + Before(items[1..])
  }

  lemma Cons(a: seq<Item>, b: seq<Item>)
    requires a != []
    ensures (a + b) != [] && (a + b)[0] == a[0] && (a + b)[1..] == a[1..] + b && a == [a[0]] + a[1..]
  {
  }

  lemma Assoc<T>(a: seq<T>, b: seq<T>, c: seq<T>)
    ensures a + (b + c) == (a + b) + c
  {
  }

  lemma {:induction false} CountConcat(a: seq<Item>, b: seq<Item>)
    ensures MarkerCount(a + b) == MarkerCount(a) + MarkerCount(b)
  {
    if a == [] {
      assert a + b == b;
    } else {
      CountConcat(a[1..], b);
      Cons(a, b);
    }
  }

  lemma {:induction false} BeforeConcat(a: seq<Item>, b: seq<Item>)
    ensures Before(a + b) == if MarkerCount(a) == 0 then a + Before(b) else Before(a)
  {
    if a == [] {
      assert a + b == b && [] + Before(b) == Before(b);
    } else {
      var rest := a[1..];
      BeforeConcat(rest, b);
      Cons(a, b);
      assert Before(a + b) == if a[0].Marker? then [] else [a[0]] + Before(rest + b);
      Assoc([a[0]], rest, Before(b));
    }
  }

  lemma Split(items: seq<Item>, at: nat)
    requires at < |items|
    ensures items == items[..at] + ([items[at]] + items[at + 1..])
  {
  }

  lemma One(it: Item)
    ensures MarkerCount([it]) == (if it.Marker? then 1 else 0)
    ensures Before([it]) == if it.Marker? then [] else [it]
  {
    assert [it][1..] == [];
  }

  /** Taking one item out. */
  lemma CountWithout(items: seq<Item>, at: nat)
    requires at < |items|
    ensures MarkerCount(items) == MarkerCount(Without(items, at)) + (if items[at].Marker? then 1 else 0)
    ensures MarkerCount(items[..at]) <= MarkerCount(Without(items, at))
  {
    Split(items, at);
    CountConcat(items[..at], [items[at]] + items[at + 1..]);
    CountConcat([items[at]], items[at + 1..]);
    CountConcat(items[..at], items[at + 1..]);
    One(items[at]);
  }

  lemma BeforeSplit(items: seq<Item>, at: nat)
    requires at < |items|
    ensures MarkerCount(items[..at]) > 0 ==> Before(items) == Before(items[..at])
    ensures MarkerCount(items[..at]) == 0 ==>
              Before(items) == items[..at] + (if items[at].Marker? then [] else [items[at]] + Before(items[at + 1..]))
  {
    Split(items, at);
    BeforeConcat(items[..at], [items[at]] + items[at + 1..]);
    BeforeConcat([items[at]], items[at + 1..]);
    One(items[at]);
  }

  lemma BeforeWithout(items: seq<Item>, at: nat)
    requires at < |items|
    ensures MarkerCount(items[..at]) > 0 ==> Before(Without(items, at)) == Before(items)
    ensures MarkerCount(items[..at]) == 0 && items[at].Mail? ==>
              at < |Before(items)| && Before(items)[at] == items[at]
              && Before(Without(items, at)) == Without(Before(items), at)
    ensures MarkerCount(items[..at]) == 0 && items[at].Marker? ==> Before(items) == items[..at]
  {
    hide MarkerCount, Before;
    BeforeSplit(items, at);
    BeforeConcat(items[..at], items[at + 1..]);
    if MarkerCount(items[..at]) == 0 && items[at].Mail? {
      TakenFromMiddle(items[..at], items[at], Before(items[at + 1..]));
    }
  }

  lemma TakenFromMiddle(a: seq<Item>, it: Item, b: seq<Item>)
    ensures var all := a + ([it] + b); |a| < |all| && all[|a|] == it && Without(all, |a|) == a + b
  {
  }

  lemma {:induction false} BeforeIsPrefix(items: seq<Item>)
    ensures |Before(items)| <= |items| && Before(items) == items[..|Before(items)|]
  {
    if items != [] && !items[0].Marker? {
      BeforeIsPrefix(items[1..]);
      assert items[..|Before(items)|] == [items[0]] + items[1..][..|Before(items)| - 1];
    }
  }

  lemma BeforeLetters(items: seq<Item>)
    ensures Letters(Before(items)) <= Letters(items)
  {
    BeforeIsPrefix(items);
    hide Before;
    forall l | l in Letters(Before(items)) ensures l in Letters(items) {
      var i :| 0 <= i < |Before(items)| && Before(items)[i].Mail? && Before(items)[i].letter == l;
      assert items[i] == Before(items)[i];
    }
  }

  // ---------- one channel ----------

  /** Every packet is in flight at most once; ids are used up to the number of packets sent. */
  ghost predicate Distinct(ch: Channel) {
    && (forall i, j :: 0 <= i < j < |ch.items| && ch.items[i].Mail? && ch.items[j].Mail? ==>
          ch.items[i].letter != ch.items[j].letter)
    && (forall l :: l in Letters(ch.items) ==> l.id < |ch.sent|)
    && (forall l :: l in ch.received ==> l.id < |ch.sent|)
  }

  /** What the sending end has recorded as sent, or will, if it records now. */
  function Basis(ch: Channel, fromDone: bool): seq<Letter> {
    if fromDone then ch.sentAtRecording else ch.sent
  }

  /** `fromDone`: the sending end has recorded; `toDone`: the receiving end has; `got`: how often
      the marker of the sending end has been received. */
  ghost predicate ChannelOk(ch: Channel, fromDone: bool, toDone: bool, got: nat) {
    && MarkerCount(ch.items) + got == (if fromDone then 1 else 0)
    && (forall l :: l in Basis(ch, fromDone) ==> l.id < |ch.sent|)
    && (got == 0 ==> forall l :: l in Letters(ch.items) ==>
          (l in Basis(ch, fromDone) <==> l in Letters(Before(ch.items))))
    && (toDone && got == 0 ==> ch.receivedAtRecording + ch.recordedInTransit == ch.received)
    && (!toDone ==> ch.recordedInTransit == [])
    && (got > 0 ==> toDone)
  }

  lemma LettersAppend(items: seq<Item>, it: Item)
    ensures Letters(items + [it]) == Letters(items) + (if it.Mail? then {it.letter} else {})
  {
    var all := items + [it];
    forall l ensures l in Letters(all) <==> l in Letters(items) || (it.Mail? && l == it.letter) {
      if l in Letters(items) {
        var i :| 0 <= i < |items| && items[i].Mail? && items[i].letter == l;
        assert all[i] == items[i];
      }
      if it.Mail? && l == it.letter { assert all[|items|] == it; }
    }
  }

  lemma LettersWithout(items: seq<Item>, at: nat)
    requires at < |items|
    requires forall i, j :: 0 <= i < j < |items| && items[i].Mail? && items[j].Mail? ==>
               items[i].letter != items[j].letter
    ensures Letters(Without(items, at)) == Letters(items) - (if items[at].Mail? then {items[at].letter} else {})
  {
    var rest := Without(items, at);
    forall l ensures l in Letters(rest) <==> l in Letters(items) && !(items[at].Mail? && l == items[at].letter) {
      if l in Letters(rest) {
        var i :| 0 <= i < |rest| && rest[i].Mail? && rest[i].letter == l;
        var k := if i < at then i else i + 1;
        assert items[k] == rest[i];
      }
      if l in Letters(items) && !(items[at].Mail? && l == items[at].letter) {
        var i :| 0 <= i < |items| && items[i].Mail? && items[i].letter == l;
        var k := if i < at then i else i - 1;
        assert rest[k] == items[i];
      }
    }
  }

  lemma SentDistinct(ch: Channel, x: Payload)
    requires Distinct(ch)
    ensures Distinct(Sent(ch, x))
  {
    var l := Letter(|ch.sent|, x);
    LettersAppend(ch.items, Mail(l));
    assert l !in Letters(ch.items);
    forall i | 0 <= i < |ch.items| && ch.items[i].Mail? ensures ch.items[i].letter != l {
      assert ch.items[i].letter in Letters(ch.items);
    }
  }

  lemma WithoutDistinct(ch: Channel, at: nat)
    requires Distinct(ch) && at < |ch.items|
    ensures Distinct(Lost(ch, at))
  {
    LettersWithout(ch.items, at);
    var rest := Without(ch.items, at);
    forall i, j | 0 <= i < j < |rest| && rest[i].Mail? && rest[j].Mail? ensures rest[i].letter != rest[j].letter {
      assert rest[i] == ch.items[if i < at then i else i + 1];
      assert rest[j] == ch.items[if j < at then j else j + 1];
    }
  }

  lemma ReceivedDistinct(ch: Channel, at: nat, recording: bool, stays: bool)
    requires Distinct(ch) && at < |ch.items| && ch.items[at].Mail?
    ensures Distinct(Received(ch, at, recording, stays))
  {
    WithoutDistinct(ch, at);
    LettersWithout(ch.items, at);
    assert ch.items[at].letter in Letters(ch.items);
  }

  /** A packet stands before the marker exactly if its letter is among those before it. */
  lemma StandsBefore(ch: Channel, at: nat)
    requires Distinct(ch) && at < |ch.items| && ch.items[at].Mail?
    ensures ch.items[at].letter in Letters(ch.items)
    ensures ch.items[at].letter in Letters(Before(ch.items)) <==> MarkerCount(ch.items[..at]) == 0
    ensures Letters(Before(Without(ch.items, at))) == Letters(Before(ch.items)) - {ch.items[at].letter}
  {
    var b := Before(ch.items);
    BeforeIsPrefix(ch.items);
    BeforeWithout(ch.items, at);
    hide MarkerCount, Before;
    if MarkerCount(ch.items[..at]) == 0 {
      assert b[at].letter in Letters(b);
      LettersWithout(b, at);
    } else if ch.items[at].letter in Letters(b) {
      var i :| 0 <= i < |b| && b[i].Mail? && b[i].letter == ch.items[at].letter;
      assert ch.items[i] == b[i];
      assert i == at;
      BeforeEndsEarly(ch.items, at);
      assert false;
    }
  }

  lemma {:induction false} BeforeEndsEarly(items: seq<Item>, at: nat)
    requires at < |items| && MarkerCount(items[..at]) > 0
    ensures |Before(items)| < at
  {
    Split(items, at);
    BeforeConcat(items[..at], [items[at]] + items[at + 1..]);
    ShorterThanAll(items[..at]);
  }

  lemma {:induction false} ShorterThanAll(items: seq<Item>)
    requires MarkerCount(items) > 0
    ensures |Before(items)| < |items|
  {
    if !items[0].Marker? { ShorterThanAll(items[1..]); }
  }

  // ---------- what each step does to a channel ----------

  lemma SendKeeps(ch: Channel, fromDone: bool, toDone: bool, got: nat, x: Payload)
    requires Distinct(ch) && ChannelOk(ch, fromDone, toDone, got)
    ensures ChannelOk(Sent(ch, x), fromDone, toDone, got)
  {
    SentMarkers(ch, x);
    if got == 0 { SendKeepsBasis(ch, fromDone, x); }
    hide MarkerCount, Before, Letters, Distinct;
  }

  /** Before the marker, the new packet counts as sent; behind it, it does not. */
  lemma SendKeepsBasis(ch: Channel, fromDone: bool, x: Payload)
    requires Distinct(ch) && MarkerCount(ch.items) == (if fromDone then 1 else 0)
    requires forall l :: l in Basis(ch, fromDone) ==> l.id < |ch.sent|
    requires forall l :: l in Letters(ch.items) ==> (l in Basis(ch, fromDone) <==> l in Letters(Before(ch.items)))
    ensures var ch' := Sent(ch, x);
            forall l :: l in Letters(ch'.items) ==> (l in Basis(ch', fromDone) <==> l in Letters(Before(ch'.items)))
  {
    var l := Letter(|ch.sent|, x);
    SentMarkers(ch, x);
    LettersAppend(ch.items, Mail(l));
    LettersAppend(Before(ch.items), Mail(l));
    BeforeLetters(ch.items);
    hide MarkerCount, Before, Letters;
  }

  lemma SentMarkers(ch: Channel, x: Payload)
    ensures MarkerCount(Sent(ch, x).items) == MarkerCount(ch.items)
    ensures Before(Sent(ch, x).items)
            == if MarkerCount(ch.items) == 0 then Before(ch.items) + [Mail(Letter(|ch.sent|, x))] else Before(ch.items)
    ensures MarkerCount(ch.items) == 0 ==> Before(ch.items) == ch.items
  {
    var it := Mail(Letter(|ch.sent|, x));
    CountConcat(ch.items, [it]);
    BeforeConcat(ch.items, [it]);
    BeforeConcat(ch.items, []);
    One(it);
    assert ch.items + [] == ch.items;
  }

  function MarkSent(ch: Channel): Channel {
    ch.(sentAtRecording := ch.sent, items := ch.items + [Marker])
  }

  function MarkReceived(ch: Channel): Channel {
    ch.(receivedAtRecording := ch.received)
  }

  lemma MarkerAppended(ch: Channel)
    requires Distinct(ch)
    ensures Distinct(MarkSent(ch)) && Letters(MarkSent(ch).items) == Letters(ch.items)
    ensures MarkerCount(MarkSent(ch).items) == MarkerCount(ch.items) + 1
    ensures MarkerCount(ch.items) == 0 ==> Before(MarkSent(ch).items) == Before(ch.items)
  {
    LettersAppend(ch.items, Marker);
    CountConcat(ch.items, [Marker]);
    BeforeConcat(ch.items, [Marker]);
    BeforeConcat(ch.items, []);
    One(Marker);
    assert ch.items + [] == ch.items;
    hide MarkerCount, Before, Letters;
  }

  lemma MarkSentKeeps(ch: Channel, toDone: bool, got: nat)
    requires Distinct(ch) && ChannelOk(ch, false, toDone, got)
    ensures ChannelOk(MarkSent(ch), true, toDone, got) && got == 0
  {
    MarkerAppended(ch);
    hide MarkerCount, Before, Letters, Distinct;
  }

  lemma MarkReceivedKeeps(ch: Channel, fromDone: bool, got: nat)
    requires Distinct(ch) && ChannelOk(ch, fromDone, false, got)
    ensures ChannelOk(MarkReceived(ch), fromDone, true, got) && Distinct(MarkReceived(ch))
  {
    hide MarkerCount, Before, Letters;
  }

  lemma ReceiveKeeps(ch: Channel, fromDone: bool, toDone: bool, got: nat, at: nat, stays: bool)
    requires Distinct(ch) && ChannelOk(ch, fromDone, toDone, got) && at < |ch.items| && ch.items[at].Mail?
    ensures ChannelOk(Received(ch, at, toDone && got == 0, stays), fromDone, toDone, got)
  {
    if !stays { LoseKeeps(ch, fromDone, toDone, got, at); }
    hide MarkerCount, Before, Letters, Without, Distinct;
    if toDone && got == 0 {
      Assoc(ch.receivedAtRecording, ch.recordedInTransit, [ch.items[at].letter]);
    }
  }

  lemma LoseKeeps(ch: Channel, fromDone: bool, toDone: bool, got: nat, at: nat)
    requires Distinct(ch) && ChannelOk(ch, fromDone, toDone, got) && at < |ch.items| && ch.items[at].Mail?
    ensures ChannelOk(Lost(ch, at), fromDone, toDone, got)
  {
    StandsBefore(ch, at);
    LettersWithout(ch.items, at);
    CountWithout(ch.items, at);
    hide MarkerCount, Before, Letters, Without;
  }

  lemma MarkerKeeps(ch: Channel, fromDone: bool, got: nat, at: nat)
    requires Distinct(ch) && ChannelOk(ch, fromDone, true, got) && at < |ch.items| && ch.items[at].Marker?
    ensures ChannelOk(Lost(ch, at), fromDone, true, got + 1) && got == 0 && fromDone
  {
    CountWithout(ch.items, at);
    hide MarkerCount, Before, Letters, Without;
  }

  // ---------- the whole system ----------

  ghost function Got(w: Snapshot, c: (nat, nat)): nat {
    if c.1 in w.markersFrom then multiset(w.markersFrom[c.1])[c.0] else 0
  }

  ghost predicate ItemsFrom(ch: Channel, p: nat) {
    forall l :: l in Letters(ch.items) ==> Source(l.payload) == p
  }

  ghost predicate ChannelInv(w: Snapshot, c: (nat, nat))
    requires c in w.channels
  {
    && Distinct(w.channels[c]) && ItemsFrom(w.channels[c], c.0)
    && ChannelOk(w.channels[c], c.0 in w.recorded, c.1 in w.recorded, Got(w, c))
  }

  ghost predicate Inv(w: Snapshot) {
    && |w.hosts| >= 2
    && (forall c :: c in w.channels <==> c.0 in w.hosts && c.1 in w.hosts && c.0 != c.1)
    && w.markersFrom.Keys == w.hosts && w.recorded <= w.hosts
    && (forall q, p :: q in w.hosts && p in w.markersFrom[q] ==> (p, q) in w.channels)
    && (forall c :: c in w.channels ==> ChannelInv(w, c))
  }

  lemma InitInv(w: Snapshot)
    requires Init(w)
    ensures Inv(w)
  {
    assert forall c :: c in w.channels <==> (c.0, c.1) in w.channels;
    forall c | c in w.channels ensures ChannelInv(w, c) {
      assert Before([]) == [] && MarkerCount([]) == 0 && Letters([]) == {};
    }
  }

  /** What recording does to one channel. */
  lemma RecordedChannel(w: Snapshot, p: nat, c: (nat, nat))
    requires Inv(w) && p in w.hosts && p !in w.recorded && c in w.channels
    ensures ChannelInv(Record(w, p), c)
  {
    hide ChannelOk, Distinct, Letters;
    var ch, got := w.channels[c], Got(w, c);
    assert ChannelInv(w, c) && c.0 != c.1;
    assert Got(Record(w, p), c) == got;
    if c.0 == p {
      MarkSentKeeps(ch, c.1 in w.recorded, got);
      MarkerAppended(ch);
    } else if c.1 == p {
      MarkReceivedKeeps(ch, c.0 in w.recorded, got);
    }
  }

  lemma RecordInv(w: Snapshot, p: nat)
    requires Inv(w) && p in w.hosts && p !in w.recorded
    ensures Inv(Record(w, p))
  {
    hide ChannelInv;
    forall c | c in w.channels ensures ChannelInv(Record(w, p), c) {
      RecordedChannel(w, p, c);
    }
  }

  lemma OtherChannel(w: Snapshot, c: (nat, nat), w': Snapshot)
    requires c in w.channels && ChannelInv(w, c) && c in w'.channels && w'.channels[c] == w.channels[c]
    requires Got(w', c) == Got(w, c) && w'.recorded == w.recorded
    ensures ChannelInv(w', c)
  {
  }

  lemma TakenMarkers(w: Snapshot, p: nat, q: nat, at: nat, c: (nat, nat))
    requires (p, q) in w.channels && q in w.markersFrom && at < |w.channels[(p, q)].items|
    ensures Got(TakeMarker(w, p, q, at), c) == if c == (p, q) then Got(w, c) + 1 else Got(w, c)
  {
    assert c == (c.0, c.1);
  }

  lemma TakeMarkerInv(w: Snapshot, p: nat, q: nat, at: nat)
    requires Inv(w) && HasItem(w, p, q, at, true) && q in w.recorded
    ensures Inv(TakeMarker(w, p, q, at))
  {
    hide ChannelInv, Without, Got;
    var w' := TakeMarker(w, p, q, at);
    forall c | c in w'.channels ensures ChannelInv(w', c) {
      TakenMarkers(w, p, q, at, c);
      if c == (p, q) { MarkedChannel(w, p, q, at); } else { OtherChannel(w, c, w'); }
    }
  }

  lemma MarkedChannel(w: Snapshot, p: nat, q: nat, at: nat)
    requires Inv(w) && HasItem(w, p, q, at, true) && q in w.recorded
    ensures ChannelInv(TakeMarker(w, p, q, at), (p, q)) && Got(w, (p, q)) == 0 && p in w.recorded
  {
    hide Without, Got, ChannelOk, Distinct, Letters;
    var ch := w.channels[(p, q)];
    assert ChannelInv(w, (p, q));
    TakenMarkers(w, p, q, at, (p, q));
    MarkerKeeps(ch, p in w.recorded, Got(w, (p, q)), at);
    WithoutDistinct(ch, at);
    FewerLetters(ch, at);
  }

  lemma FewerLetters(ch: Channel, at: nat)
    requires Distinct(ch) && at < |ch.items|
    ensures Letters(Lost(ch, at).items) <= Letters(ch.items)
  {
    LettersWithout(ch.items, at);
  }

  lemma ChangeInv(w: Snapshot, c: (nat, nat), ch: Channel)
    requires Inv(w) && c in w.channels
    requires Distinct(ch) && ItemsFrom(ch, c.0) && ChannelOk(ch, c.0 in w.recorded, c.1 in w.recorded, Got(w, c))
    ensures Inv(w.(channels := w.channels[c := ch]))
  {
    hide ChannelOk, Distinct, ItemsFrom;
    var w' := w.(channels := w.channels[c := ch]);
    forall d | d in w'.channels ensures ChannelInv(w', d) {
      assert Got(w', d) == Got(w, d);
      if d != c { OtherChannel(w, d, w'); }
    }
  }

  lemma SentFrom(ch: Channel, p: nat, x: Payload)
    requires ItemsFrom(ch, p) && Source(x) == p
    ensures ItemsFrom(Sent(ch, x), p)
  {
    LettersAppend(ch.items, Mail(Letter(|ch.sent|, x)));
  }

  lemma ChannelInvAt(w: Snapshot, c: (nat, nat))
    requires Inv(w) && c in w.channels
    ensures ChannelInv(w, c) && c.0 in w.hosts && c.1 in w.hosts && c.0 != c.1
  {
    hide ChannelInv;
  }

  lemma MarkerCame(w: Snapshot, p: nat, q: nat)
    requires Inv(w) && (p, q) in w.channels && Got(w, (p, q)) > 0
    ensures p in w.recorded && q in w.recorded
  {
    ChannelInvAt(w, (p, q));
    hide Inv, Letters, Before, MarkerCount, Distinct, Got;
  }

  lemma StepInv(w: Snapshot, step: Step, w': Snapshot)
    requires Inv(w) && Next(w, step, w')
    ensures Inv(w')
  {
    hide Inv, ChannelOk, Distinct, Letters, Without, Record, TakeMarker, Sent, Received, Lost, Got;
    match step
    case Send(p, q, x) =>
      ChannelInvAt(w, (p, q));
      var ch := w.channels[(p, q)];
      SendKeeps(ch, p in w.recorded, q in w.recorded, Got(w, (p, q)), x);
      SentDistinct(ch, x);
      SentFrom(ch, p, x);
      ChangeInv(w, (p, q), Sent(ch, x));
    case Initiate(p) => RecordInv(w, p);
    case ReceivePacket(p, q, at, stays) => ReceiveInv(w, p, q, at, stays);
    case LosePacket(p, q, at) =>
      ChannelInvAt(w, (p, q));
      var ch := w.channels[(p, q)];
      LoseKeeps(ch, p in w.recorded, q in w.recorded, Got(w, (p, q)), at);
      WithoutDistinct(ch, at);
      FewerLetters(ch, at);
      ChangeInv(w, (p, q), Lost(ch, at));
    case ReceiveMarker(p, q, at) =>
      ChannelInvAt(w, (p, q));
      if q in w.recorded {
        TakeMarkerInv(w, p, q, at);
      } else {
        RecordInv(w, q);
        JustRecorded(w, p, q, at);
        TakeMarkerInv(Record(w, q), p, q, at);
      }
  }

  /** Recording the channel is waiting for its marker. */
  lemma WaitingIsGotNone(w: Snapshot, p: nat, q: nat)
    requires q in w.markersFrom
    ensures p !in w.markersFrom[q] <==> Got(w, (p, q)) == 0
  {
  }

  lemma ReceiveInv(w: Snapshot, p: nat, q: nat, at: nat, stays: bool)
    requires Inv(w) && HasItem(w, p, q, at, false)
    ensures Inv(w.(channels := w.channels[(p, q) := Received(w.channels[(p, q)], at,
                                                             q in w.recorded && p !in w.markersFrom[q], stays)]))
  {
    hide Inv, ChannelOk, Distinct, Letters, Without, Got;
    ChannelInvAt(w, (p, q));
    WaitingIsGotNone(w, p, q);
    var ch, got := w.channels[(p, q)], Got(w, (p, q));
    var ch' := Received(ch, at, q in w.recorded && got == 0, stays);
    ReceiveKeeps(ch, p in w.recorded, q in w.recorded, got, at, stays);
    ReceivedDistinct(ch, at, q in w.recorded && got == 0, stays);
    FewerLetters(ch, at);
    ChangeInv(w, (p, q), ch');
  }

  lemma JustRecorded(w: Snapshot, p: nat, q: nat, at: nat)
    requires HasItem(w, p, q, at, true) && p != q
    ensures q in Record(w, q).recorded && HasItem(Record(w, q), p, q, at, true)
  {
  }

  lemma {:induction false} RunInv(run: seq<Snapshot>, steps: seq<Step>, i: nat)
    requires IsRun(run, steps) && i < |run|
    ensures Inv(run[i])
  {
    hide Next, Inv, Init;
    if i == 0 {
      InitInv(run[0]);
    } else {
      RunInv(run, steps, i - 1);
      StepInv(run[i - 1], steps[i - 1], run[i - 1 + 1]);
    }
  }

  lemma ReachableInv(w: Snapshot)
    requires Reachable(w)
    ensures Inv(w)
  {
    hide Inv;
    var run, steps :| IsRun(run, steps) && run[|steps|] == w;
    RunInv(run, steps, |steps|);
  }
}
