/** The delivery loop, seen as sorting the queue and taking the deliverable prefix. */
module Delivery {
  import opened Messages
  import opened NodeSpec

  lemma PoppedNothing(q: multiset<QueuedMessage>)
    ensures Popped(q, [], q)
  {
  }

  /** Popping the front once more. */
  lemma PopOne(q: multiset<QueuedMessage>, out: seq<QueuedMessage>, rest: multiset<QueuedMessage>,
               x: QueuedMessage, rest': multiset<QueuedMessage>)
    requires Popped(q, out, rest) && rest == rest' + multiset{x}
    requires x.status.Deliverable? && forall y :: y in rest ==> !Cmp(x, y)
    ensures Popped(q, out + [x], rest')
  {
    assert multiset(out + [x]) == multiset(out) + multiset{x};
    assert q == multiset(out + [x]) + rest';
    assert x in rest && forall y :: y in rest' ==> y in rest;
  }

  /** `t` lists the entries of `q` in strictly increasing order of their keys. */
  ghost predicate Sorts(t: seq<QueuedMessage>, q: multiset<QueuedMessage>) {
    && multiset(t) == q
    && forall i, j :: 0 <= i < j < |t| ==> Cmp(t[j], t[i])
  }

  function DeliverablePrefix(t: seq<QueuedMessage>): seq<QueuedMessage> {
    if t == [] || t[0].status.Undeliverable? then [] else [t[0]] + DeliverablePrefix(t[1..])
  }

  lemma SortedFront(t: seq<QueuedMessage>, q: multiset<QueuedMessage>, x: QueuedMessage)
    requires Sorts(t, q) && x in q && forall y :: y in q ==> !Cmp(x, y)
    ensures t != [] && t[0] == x && Sorts(t[1..], q - multiset{x})
  {
    assert x in t;
    assert t[0] in multiset(t);
    assert t == [t[0]] + t[1..];
    assert multiset(t) == multiset{t[0]} + multiset(t[1..]);
  }

  lemma PoppedFirst(q: multiset<QueuedMessage>, out: seq<QueuedMessage>, rest: multiset<QueuedMessage>)
    requires Popped(q, out, rest) && out != []
    ensures out[0] in q && forall y :: y in q ==> !Cmp(out[0], y)
  {
    assert out[0] in multiset(out);
    forall y | y in q ensures !Cmp(out[0], y) {
      if y !in rest {
        assert y in multiset(out);
        var i :| 0 <= i < |out| && out[i] == y;
      }
    }
  }

  lemma PoppedTail(q: multiset<QueuedMessage>, out: seq<QueuedMessage>, rest: multiset<QueuedMessage>)
    requires Popped(q, out, rest) && out != []
    ensures Popped(q - multiset{out[0]}, out[1..], rest)
  {
    var x, tail := out[0], out[1..];
    assert out == [x] + tail;
    assert multiset(out) == multiset{x} + multiset(tail);
    assert q - multiset{x} == multiset(tail) + rest;
  }

  /** When keys are distinct, the loop appends exactly the longest deliverable prefix of the
      sorted queue. */
  lemma {:induction false} DrainsIsDeliverablePrefix(q: multiset<QueuedMessage>, out: seq<QueuedMessage>,
                                                     q': multiset<QueuedMessage>, t: seq<QueuedMessage>)
    requires Drains(q, out, q') && Sorts(t, q)
    ensures out == DeliverablePrefix(t)
    decreases |out|
  {
    if out == [] {
      assert multiset(out) + q' == q';
      if q != multiset{} {
        var x :| x in q && x.status.Undeliverable? && forall y :: y in q ==> !Cmp(x, y);
        SortedFront(t, q, x);
      } else {
        assert |multiset(t)| == |t|;
      }
    } else {
      PoppedFirst(q, out, q');
      PoppedTail(q, out, q');
      SortedFront(t, q, out[0]);
      assert out[0].status.Deliverable?;
      hide Popped, Sorts, Stopped;
      DrainsIsDeliverablePrefix(q - multiset{out[0]}, out[1..], q', t[1..]);
      assert out == [out[0]] + out[1..];
    }
  }
}
