/** Total order: the delivered lists of any two processes are prefixes of one another if nothing gets
    ahead of a smaller message, and once everything is delivered they are equal exactly if the same
    messages get ahead of the same ones everywhere. */
module PrefixOrder {
  import opened Messages
  import opened NodeSpec
  import opened NodeInvariant
  import opened Machine
  import opened Invariant
  import opened Agreement
  import opened TotalOrder

  /** No two messages share their final number and its proposer. */
  ghost predicate DistinctPairs(w: World) {
    forall d, d' :: Decided(w, d) && Decided(w, d') && d.Key() != d'.Key() ==> Smaller(d, d') || Smaller(d', d)
  }

  ghost predicate NobodyLate(w: World) {
    forall p, d, d' :: p in w.nodes && Decided(w, d) && Decided(w, d') ==> !Late(w.nodes[p], d', d)
  }

  ghost predicate NobodyOvertaken(w: World) {
    forall p, d, d' :: p in w.nodes && Decided(w, d) && Decided(w, d') ==> !Overtaken(w.nodes[p], d', d)
  }

  // ---------- two lists that are sorted and closed downwards ----------

  ghost predicate StrictlyIncreasing(a: seq<QueuedMessage>) {
    forall i, j :: 0 <= i < j < |a| ==> Cmp(a[j], a[i])
  }

  /** Whatever `b` holds below an element of `a` is in `a` too. */
  ghost predicate ClosedUnder(a: seq<QueuedMessage>, b: seq<QueuedMessage>) {
    forall i, j :: 0 <= i < |a| && 0 <= j < |b| && Cmp(a[i], b[j]) ==> b[j] in a
  }

  ghost predicate PairsIdentify(a: seq<QueuedMessage>, b: seq<QueuedMessage>) {
    forall i, j :: 0 <= i < |a| && 0 <= j < |b| && !Cmp(a[i], b[j]) && !Cmp(b[j], a[i]) ==> a[i] == b[j]
  }

  /** Where two such lists first differ, neither has the smaller element: the other one would hold
      that element too. */
  lemma NotBelow(a: seq<QueuedMessage>, b: seq<QueuedMessage>, n: nat)
    requires StrictlyIncreasing(a) && StrictlyIncreasing(b) && ClosedUnder(b, a)
    requires n < |a| && n < |b| && forall k :: 0 <= k < n ==> a[k] == b[k]
    ensures !Cmp(b[n], a[n])
  {
    if Cmp(b[n], a[n]) {
      hide Cmp;
      assert Cmp(b[n], a[n]);
      var j :| 0 <= j < |b| && b[j] == a[n];
      if j < n {
        assert Cmp(a[n], a[j]);
      } else {
        assert j == n || Cmp(b[j], b[n]);
      }
      CmpIsStrict(a[n], b[n]);
      assert false;
    }
  }

  lemma CmpIsStrict(x: QueuedMessage, y: QueuedMessage)
    ensures !Cmp(x, x) && !(Cmp(x, y) && Cmp(y, x))
  {
  }

  lemma SameAt(a: seq<QueuedMessage>, b: seq<QueuedMessage>, n: nat)
    requires PairsIdentify(a, b) && n < |a| && n < |b| && !Cmp(a[n], b[n]) && !Cmp(b[n], a[n])
    ensures a[n] == b[n]
  {
  }

  lemma {:induction false} AgreeUpTo(a: seq<QueuedMessage>, b: seq<QueuedMessage>, n: nat)
    requires StrictlyIncreasing(a) && StrictlyIncreasing(b)
    requires ClosedUnder(a, b) && ClosedUnder(b, a) && PairsIdentify(a, b)
    requires n <= |a| && n <= |b|
    ensures forall k :: 0 <= k < n ==> a[k] == b[k]
  {
    hide StrictlyIncreasing, ClosedUnder, PairsIdentify, Cmp;
    if n > 0 {
      AgreeUpTo(a, b, n - 1);
      NotBelow(a, b, n - 1);
      NotBelow(b, a, n - 1);
      SameAt(a, b, n - 1);
    }
  }

  lemma PrefixOfOneAnother(a: seq<QueuedMessage>, b: seq<QueuedMessage>)
    requires StrictlyIncreasing(a) && StrictlyIncreasing(b)
    requires ClosedUnder(a, b) && ClosedUnder(b, a) && PairsIdentify(a, b)
    ensures a <= b || b <= a
  {
    hide StrictlyIncreasing, ClosedUnder, PairsIdentify;
    AgreeUpTo(a, b, if |a| <= |b| then |a| else |b|);
  }

  // ---------- nothing gets ahead ----------

  lemma NotAhead(w: World, p: nat, d': SeqMessage, d: SeqMessage)
    requires NobodyLate(w) && NobodyOvertaken(w) && Decided(w, d) && Decided(w, d') && p in w.nodes
    ensures !Ahead(w.nodes[p], d', d)
  {
    hide Late, Overtaken, Decided;
  }

  lemma Different(w: World, d: SeqMessage, d': SeqMessage)
    requires DistinctPairs(w) && Decided(w, d) && Decided(w, d') && d.Key() != d'.Key()
    ensures Smaller(d, d') || Smaller(d', d)
  {
  }

  lemma EntriesDiffer(w: World, p: nat, q: nat, i: nat, j: nat)
    requires Inv(w) && DistinctPairs(w) && p in w.nodes && q in w.nodes
    requires i < |w.nodes[p].delivered| && j < |w.nodes[q].delivered|
    requires w.nodes[p].delivered[i].Key() != w.nodes[q].delivered[j].Key()
    ensures Cmp(w.nodes[p].delivered[i], w.nodes[q].delivered[j])
            || Cmp(w.nodes[q].delivered[j], w.nodes[p].delivered[i])
  {
    hide Inv, DistinctPairs, Smaller, Cmp;
    var x, y := w.nodes[p].delivered[i], w.nodes[q].delivered[j];
    DeliveredEntry(w, p, i);
    DeliveredEntry(w, q, j);
    Different(w, Decision(x), Decision(y));
    SmallerIsCmp(x, y);
    SmallerIsCmp(y, x);
  }

  lemma DeliveredIsStrict(w: World, p: nat)
    requires Inv(w) && DistinctPairs(w) && NobodyLate(w) && NobodyOvertaken(w) && p in w.nodes
    ensures StrictlyIncreasing(w.nodes[p].delivered)
  {
    hide Inv, Ordered, DistinctPairs, NobodyLate, NobodyOvertaken, Ahead, Decided, Cmp;
    var s := w.nodes[p];
    InvOrdered(w, p);
    DeliveredOnce(s);
    forall i, j | 0 <= i < j < |s.delivered| ensures Cmp(s.delivered[j], s.delivered[i]) {
      DeliveredEntry(w, p, i);
      DeliveredEntry(w, p, j);
      NotAhead(w, p, Decision(s.delivered[i]), Decision(s.delivered[j]));
      AheadExactly(w, p, j, i);
      EntriesDiffer(w, p, p, i, j);
    }
  }

  lemma DeliveredIsClosed(w: World, p: nat, q: nat)
    requires Inv(w) && NobodyLate(w) && NobodyOvertaken(w) && p in w.nodes && q in w.nodes
    ensures ClosedUnder(w.nodes[p].delivered, w.nodes[q].delivered)
  {
    hide Inv, NobodyLate, NobodyOvertaken, Ahead, Decided, Cmp, Smaller;
    var a, b := w.nodes[p].delivered, w.nodes[q].delivered;
    forall i, j | 0 <= i < |a| && 0 <= j < |b| && Cmp(a[i], b[j]) ensures b[j] in a {
      DeliveredEntry(w, p, i);
      DeliveredEntry(w, q, j);
      NotAhead(w, p, Decision(a[i]), Decision(b[j]));
      SmallerIsCmp(b[j], a[i]);
      if forall k :: 0 <= k <= i ==> a[k].Key() != b[j].Key() {
        PassedIsAhead(w, p, i, Decision(b[j]));
        assert false;
      } else {
        var k :| 0 <= k <= i && a[k].Key() == b[j].Key();
        SameEntry(w, p, q, k, j);
      }
    }
  }

  lemma PairsIdentifyEntries(w: World, p: nat, q: nat)
    requires Inv(w) && DistinctPairs(w) && p in w.nodes && q in w.nodes
    ensures PairsIdentify(w.nodes[p].delivered, w.nodes[q].delivered)
  {
    hide Inv, DistinctPairs, Decided, Cmp;
    var a, b := w.nodes[p].delivered, w.nodes[q].delivered;
    forall i, j | 0 <= i < |a| && 0 <= j < |b| && !Cmp(a[i], b[j]) && !Cmp(b[j], a[i]) ensures a[i] == b[j] {
      if a[i].Key() == b[j].Key() {
        SameEntry(w, p, q, i, j);
      } else {
        EntriesDiffer(w, p, q, i, j);
        assert false;
      }
    }
  }

  /** If nobody takes a message in late, nothing is overtaken and no two messages share their final
      number and proposer, then of the delivered lists of any two processes one is a prefix of the
      other. */
  lemma PrefixAgreement(w: World, p: nat, q: nat)
    requires Reachable(w) && DistinctPairs(w) && NobodyLate(w) && NobodyOvertaken(w)
    requires p in w.nodes && q in w.nodes
    ensures w.nodes[p].delivered <= w.nodes[q].delivered || w.nodes[q].delivered <= w.nodes[p].delivered
  {
    hide Reachable, Inv, DistinctPairs, NobodyLate, NobodyOvertaken, StrictlyIncreasing, ClosedUnder, PairsIdentify;
    ReachableInv(w);
    DeliveredIsStrict(w, p);
    DeliveredIsStrict(w, q);
    DeliveredIsClosed(w, p, q);
    DeliveredIsClosed(w, q, p);
    PairsIdentifyEntries(w, p, q);
    PrefixOfOneAnother(w.nodes[p].delivered, w.nodes[q].delivered);
  }

  // ---------- runs whose clocks keep ahead ----------

  /** In every step of the run, a process that proposes a number for a message has delivered
      nothing with a final number that large. */
  ghost predicate WellClocked(run: seq<World>) {
    forall t :: 0 <= t < |run| - 1 ==> StepWellClocked(run[t], run[t + 1])
  }

  ghost predicate StepWellClocked(w: World, w': World) {
    forall p, m, i :: NewlyTaken(w, w', p, m) && 0 <= i < |w.nodes[p].delivered|
      ==> w.nodes[p].delivered[i].sequenceNumber < w'.nodes[p].accepted[m].proposal
  }

  ghost predicate NewlyTaken(w: World, w': World, p: nat, m: MsgKey) {
    p in w.nodes && p in w'.nodes && m in w'.nodes[p].accepted && m !in w.nodes[p].accepted
  }

  /** The same, read off the histories. */
  ghost predicate ClockAhead(s: NodeState) {
    forall m, i :: m in s.accepted && 0 <= i < |s.delivered| && i < s.accepted[m].deliveredBefore
      ==> s.delivered[i].sequenceNumber < s.accepted[m].proposal
  }

  lemma StepKeepsClockAhead(s: NodeState, s': NodeState, hosts: set<nat>, e: Event, sent: set<Packet>)
    requires Ordered(s) && ClockAhead(s) && Grows(s, s') && NodeNext(hosts, s, e, s', sent)
    requires forall m, i :: m in s'.accepted && m !in s.accepted && 0 <= i < |s.delivered|
               ==> s.delivered[i].sequenceNumber < s'.accepted[m].proposal
    ensures ClockAhead(s')
  {
    hide QueueOk, NodeNext;
    DeliveredGrows(hosts, s, e, s', sent);
    NewcomersSeeAll(hosts, s, e, s', sent);
    forall m, i | m in s'.accepted && 0 <= i < |s'.delivered| && i < s'.accepted[m].deliveredBefore
      ensures s'.delivered[i].sequenceNumber < s'.accepted[m].proposal
    {
      assert s'.accepted[m].deliveredBefore <= |s.delivered|;
      assert s'.delivered[i] == s.delivered[i];
    }
  }

  /** A message is taken in after everything delivered so far. */
  lemma NewcomersSeeAll(hosts: set<nat>, s: NodeState, e: Event, s': NodeState, sent: set<Packet>)
    requires NodeNext(hosts, s, e, s', sent)
    ensures forall m :: m in s'.accepted && m !in s.accepted ==> s'.accepted[m].deliveredBefore == |s.delivered|
  {
    hide FinalisedAndDelivered;
  }

  lemma StepKeepsAhead(w: World, step: Step, w': World, p: nat)
    requires Inv(w) && NextStep(w, step, w') && StepWellClocked(w, w') && Later(w, w')
    requires p in w.nodes && ClockAhead(w.nodes[p])
    ensures p in w'.nodes && ClockAhead(w'.nodes[p])
  {
    hide Inv, Ordered, NodeNext, ClockAhead, Enabled, Grows;
    if step.Act? && step.p == p {
      InvOrdered(w, p);
      assert forall m :: m in w'.nodes[p].accepted && m !in w.nodes[p].accepted ==> NewlyTaken(w, w', p, m);
      StepKeepsClockAhead(w.nodes[p], w'.nodes[p], w.hosts, step.event, step.sent);
    }
  }

  lemma {:induction false} WellClockedKeepsAhead(run: seq<World>, t: nat, p: nat)
    requires IsRun(run) && WellClocked(run) && t < |run| && p in run[0].nodes
    ensures p in run[t].nodes && ClockAhead(run[t].nodes[p])
  {
    hide Inv, ClockAhead, StepWellClocked, NextStep, Init;
    if t == 0 {
      StartsAhead(run[0], p);
    } else {
      WellClockedKeepsAhead(run, t - 1, p);
      RunInv(run, t - 1);
      RunIsLater(run, t - 1, t);
      assert Next(run[t - 1], run[t - 1 + 1]) && StepWellClocked(run[t - 1], run[t - 1 + 1]);
      var step :| NextStep(run[t - 1], step, run[t]);
      StepKeepsAhead(run[t - 1], step, run[t], p);
    }
  }

  lemma StartsAhead(w: World, p: nat)
    requires Init(w) && p in w.nodes
    ensures ClockAhead(w.nodes[p])
  {
  }

  lemma AheadIsNotLate(w: World, p: nat, d': SeqMessage, d: SeqMessage)
    requires Inv(w) && Decided(w, d) && Decided(w, d') && p in w.nodes && ClockAhead(w.nodes[p])
    ensures !Late(w.nodes[p], d', d)
  {
    hide Inv, Decided, IsMaxOfProposals;
    DecidedIsMax(w, d);
    OwnProposalBelow(w, p, d);
    if Late(w.nodes[p], d', d) {
      var s := w.nodes[p];
      var j: nat :| IsDelivery(s, d', j) && j < s.accepted[d.Key()].deliveredBefore;
      EntryOfDecision(w, p, j, d');
      assert false;
    }
  }

  lemma EntryOfDecision(w: World, p: nat, j: nat, d: SeqMessage)
    requires Inv(w) && p in w.nodes && j < |w.nodes[p].delivered| && w.nodes[p].delivered[j].Key() == d.Key()
    requires Decided(w, d)
    ensures Decision(w.nodes[p].delivered[j]) == d
  {
    hide Inv, Decided;
    DeliveredEntry(w, p, j);
    DecidedOnce(w, d, Decision(w.nodes[p].delivered[j]));
  }

  /** Total order for every run, with any senders, losses, duplicates and reorderings, in which the
      clocks keep ahead of the deliveries, nothing is overtaken and final pairs do not repeat. */
  lemma TotalOrderWhenWellClocked(run: seq<World>, p: nat, q: nat)
    requires IsRun(run) && WellClocked(run)
    requires var w := run[|run| - 1]; DistinctPairs(w) && NobodyOvertaken(w) && p in w.nodes && q in w.nodes
    ensures var w := run[|run| - 1];
            w.nodes[p].delivered <= w.nodes[q].delivered || w.nodes[q].delivered <= w.nodes[p].delivered
  {
    hide WellClocked, DistinctPairs, NobodyOvertaken, Inv, Late, ClockAhead, Decided;
    var w := run[|run| - 1];
    assert Reachable(w);
    RunInv(run, |run| - 1);
    RunIsLater(run, 0, |run| - 1);
    hide IsRun, Reachable;
    forall h, d, d' | h in w.nodes && Decided(w, d) && Decided(w, d') ensures !Late(w.nodes[h], d', d) {
      WellClockedKeepsAhead(run, |run| - 1, h);
      AheadIsNotLate(w, h, d', d);
    }
    PrefixAgreement(w, p, q);
  }

  // ---------- exactly when the complete lists are equal ----------

  /** Every process has delivered every message that was multicast. */
  ghost predicate AllDelivered(w: World) {
    forall p, q, k :: p in w.nodes && q in w.nodes && k in w.nodes[q].dataHistory ==>
      exists i :: 0 <= i < |w.nodes[p].delivered| && w.nodes[p].delivered[i].Key() == MsgKey(q, k)
  }

  /** Whether one message gets ahead of another does not depend on the process. */
  ghost predicate AheadEverywhereOrNowhere(w: World) {
    forall p, q, d, d' :: p in w.nodes && q in w.nodes && Decided(w, d) && Decided(w, d') ==>
      (Ahead(w.nodes[p], d', d) <==> Ahead(w.nodes[q], d', d))
  }

  ghost predicate Tied(d: SeqMessage, d': SeqMessage) {
    d.Key() != d'.Key() && !Smaller(d, d') && !Smaller(d', d)
  }

  ghost predicate Precedes(s: NodeState, d: SeqMessage, d': SeqMessage) {
    exists i: nat, j: nat :: IsDelivery(s, d, i) && IsDelivery(s, d', j) && i < j
  }

  /** In which order messages with one final number and proposer come out does not depend on the process. */
  ghost predicate TiesAlike(w: World) {
    forall p, q, d, d' :: p in w.nodes && q in w.nodes && Decided(w, d) && Decided(w, d') && Tied(d, d') ==>
      (Precedes(w.nodes[p], d, d') <==> Precedes(w.nodes[q], d, d'))
  }

  ghost predicate NoRepeats(a: seq<QueuedMessage>) {
    forall i, j :: 0 <= i < j < |a| ==> a[i] != a[j]
  }

  ghost predicate SameOrder(a: seq<QueuedMessage>, b: seq<QueuedMessage>) {
    forall i, j, k, l :: 0 <= i < |a| && 0 <= j < |a| && 0 <= k < |b| && 0 <= l < |b| ==>
      a[i] == b[k] && a[j] == b[l] ==> (i < j <==> k < l)
  }

  lemma NextAgrees(a: seq<QueuedMessage>, b: seq<QueuedMessage>, i: nat)
    requires NoRepeats(a) && NoRepeats(b) && SameOrder(a, b)
    requires i < |a| && i < |b| && a[i] in b && b[i] in a
    requires forall t :: 0 <= t < i ==> a[t] == b[t]
    ensures a[i] == b[i]
  {
    var k :| 0 <= k < |b| && b[k] == a[i];
    var l :| 0 <= l < |a| && a[l] == b[i];
    assert i < l <==> k < i;
  }

  lemma {:induction false} SameOrderUpTo(a: seq<QueuedMessage>, b: seq<QueuedMessage>, n: nat)
    requires NoRepeats(a) && NoRepeats(b) && SameOrder(a, b)
    requires (forall x :: x in a ==> x in b) && (forall x :: x in b ==> x in a)
    requires n <= |a| && n <= |b|
    ensures forall t :: 0 <= t < n ==> a[t] == b[t]
  {
    hide NoRepeats, SameOrder;
    if n > 0 {
      SameOrderUpTo(a, b, n - 1);
      NextAgrees(a, b, n - 1);
    }
  }

  lemma LongerRepeats(a: seq<QueuedMessage>, b: seq<QueuedMessage>)
    requires |a| < |b|
    requires forall x :: x in b ==> x in a
    requires forall t :: 0 <= t < |a| ==> a[t] == b[t]
    ensures !NoRepeats(b)
  {
    assert b[|a|] in a;
    var k :| 0 <= k < |a| && a[k] == b[|a|];
    assert b[k] == b[|a|];
  }

  lemma SameOrderIsEqual(a: seq<QueuedMessage>, b: seq<QueuedMessage>)
    requires NoRepeats(a) && NoRepeats(b) && SameOrder(a, b)
    requires (forall x :: x in a ==> x in b) && (forall x :: x in b ==> x in a)
    ensures a == b
  {
    hide NoRepeats, SameOrder;
    SameOrderUpTo(a, b, if |a| <= |b| then |a| else |b|);
    if |a| < |b| { LongerRepeats(a, b); }
    if |b| < |a| { LongerRepeats(b, a); }
  }

  lemma InvNoRepeats(w: World, p: nat)
    requires Inv(w) && p in w.nodes
    ensures NoRepeats(w.nodes[p].delivered)
  {
    hide Inv, Ordered;
    InvOrdered(w, p);
    DeliveredOnce(w.nodes[p]);
  }

  lemma SameElements(w: World, p: nat, q: nat)
    requires Inv(w) && AllDelivered(w) && p in w.nodes && q in w.nodes
    ensures forall x :: x in w.nodes[p].delivered ==> x in w.nodes[q].delivered
  {
    hide Inv;
    forall i | 0 <= i < |w.nodes[p].delivered| ensures w.nodes[p].delivered[i] in w.nodes[q].delivered {
      var x := w.nodes[p].delivered[i];
      DeliveredEntry(w, p, i);
      var j :| 0 <= j < |w.nodes[q].delivered| && w.nodes[q].delivered[j].Key() == MsgKey(x.sender, x.msgId);
      SameEntry(w, p, q, i, j);
    }
  }

  lemma AheadAlike(w: World, p: nat, q: nat, i: nat, j: nat)
    requires Inv(w) && AheadEverywhereOrNowhere(w) && p in w.nodes && q in w.nodes
    requires i < |w.nodes[p].delivered| && j < |w.nodes[p].delivered|
    ensures var d, d' := Decision(w.nodes[p].delivered[i]), Decision(w.nodes[p].delivered[j]);
            Ahead(w.nodes[p], d', d) <==> Ahead(w.nodes[q], d', d)
  {
    hide Inv, Ahead, Decided;
    DeliveredEntry(w, p, i);
    DeliveredEntry(w, p, j);
  }

  lemma AlikeIsSameOrder(w: World, p: nat, q: nat)
    requires Inv(w) && TiesAlike(w) && AheadEverywhereOrNowhere(w) && p in w.nodes && q in w.nodes
    ensures SameOrder(w.nodes[p].delivered, w.nodes[q].delivered)
  {
    hide Inv, TiesAlike, AheadEverywhereOrNowhere, Ahead, NoRepeats, Decision, Cmp, Ordered;
    var a, b := w.nodes[p].delivered, w.nodes[q].delivered;
    InvNoRepeats(w, q);
    InvOrdered(w, p);
    DeliveredOnce(w.nodes[p]);
    forall i, j, k, l | 0 <= i < |a| && 0 <= j < |a| && 0 <= k < |b| && 0 <= l < |b| && a[i] == b[k] && a[j] == b[l]
      ensures i < j <==> k < l
    {
      if i != j {
        SameInBoth(w, p, q, i, j, k, l);
      } else {
        assert k == l by { NoRepeatsAt(b, k, l); }
      }
    }
  }

  lemma SameInBoth(w: World, p: nat, q: nat, i: nat, j: nat, k: nat, l: nat)
    requires Inv(w) && TiesAlike(w) && AheadEverywhereOrNowhere(w) && p in w.nodes && q in w.nodes
    requires var a, b := w.nodes[p].delivered, w.nodes[q].delivered;
             && i < |a| && j < |a| && k < |b| && l < |b| && i != j && a[i] == b[k] && a[j] == b[l]
             && a[i].Key() != a[j].Key()
    ensures i < j <==> k < l
  {
    hide Inv, TiesAlike, AheadEverywhereOrNowhere, Ahead, Decision, Cmp;
    var a := w.nodes[p].delivered;
    if !Cmp(a[i], a[j]) && !Cmp(a[j], a[i]) {
      TieAlike(w, p, q, i, j, k, l);
      return;
    }
    AheadAlike(w, p, q, i, j);
    AheadAlike(w, p, q, j, i);
    AheadExactly(w, p, i, j);
    AheadExactly(w, p, j, i);
    AheadExactly(w, q, k, l);
    AheadExactly(w, q, l, k);
  }

  lemma TieAlike(w: World, p: nat, q: nat, i: nat, j: nat, k: nat, l: nat)
    requires Inv(w) && TiesAlike(w) && p in w.nodes && q in w.nodes
    requires var a, b := w.nodes[p].delivered, w.nodes[q].delivered;
             && i < |a| && j < |a| && k < |b| && l < |b| && i != j && a[i] == b[k] && a[j] == b[l]
             && a[i].Key() != a[j].Key() && !Cmp(a[i], a[j]) && !Cmp(a[j], a[i])
    ensures i < j <==> k < l
  {
    hide Inv, Decided, Precedes, Cmp, Smaller;
    var a := w.nodes[p].delivered;
    DeliveredEntry(w, p, i);
    DeliveredEntry(w, p, j);
    SmallerIsCmp(a[i], a[j]);
    SmallerIsCmp(a[j], a[i]);
    assert Tied(Decision(a[i]), Decision(a[j]));
    PrecedesAt(w, p, i, j);
    PrecedesAt(w, q, k, l);
  }

  lemma PrecedesAt(w: World, p: nat, i: nat, j: nat)
    requires Inv(w) && p in w.nodes && i < |w.nodes[p].delivered| && j < |w.nodes[p].delivered|
    ensures Precedes(w.nodes[p], Decision(w.nodes[p].delivered[i]), Decision(w.nodes[p].delivered[j])) <==> i < j
  {
    hide Inv, Ordered;
    var s := w.nodes[p];
    InvOrdered(w, p);
    var d, d' := Decision(s.delivered[i]), Decision(s.delivered[j]);
    assert IsDelivery(s, d, i) && IsDelivery(s, d', j);
    if Precedes(s, d, d') {
      var k: nat, l: nat :| IsDelivery(s, d, k) && IsDelivery(s, d', l) && k < l;
      DeliveredAsOne(s, i, k);
      DeliveredAsOne(s, j, l);
    }
  }

  lemma NoRepeatsAt(a: seq<QueuedMessage>, k: nat, l: nat)
    requires NoRepeats(a) && k < |a| && l < |a| && a[k] == a[l]
    ensures k == l
  {
  }

  lemma DecidedIsDelivered(w: World, p: nat, d: SeqMessage) returns (i: nat)
    requires Inv(w) && AllDelivered(w) && p in w.nodes && Decided(w, d)
    ensures i < |w.nodes[p].delivered| && Decision(w.nodes[p].delivered[i]) == d
  {
    hide Inv, Decided;
    DecidedIsMulticast(w, d);
    i :| 0 <= i < |w.nodes[p].delivered| && w.nodes[p].delivered[i].Key() == MsgKey(d.sender, d.msgId);
    EntryOfDecision(w, p, i, d);
  }

  lemma DecidedIsMulticast(w: World, d: SeqMessage)
    requires Inv(w) && Decided(w, d)
    ensures d.sender in w.nodes && d.msgId in w.nodes[d.sender].dataHistory
  {
    assert Local(w.hosts, w.nodes[d.sender]);
    hide SelfOk, AckedOk, ProposalsOk, QueueOk, SeqsOk, NetOk, CrossOk;
  }

  lemma SameListPrecedes(s: NodeState, s': NodeState, d: SeqMessage, d': SeqMessage)
    requires s.delivered == s'.delivered && Precedes(s, d, d')
    ensures Precedes(s', d, d')
  {
    var i: nat, j: nat :| IsDelivery(s, d, i) && IsDelivery(s, d', j) && i < j;
    assert IsDelivery(s', d, i) && IsDelivery(s', d', j);
  }

  lemma EqualIsAlike(w: World, p: nat, q: nat, d: SeqMessage, d': SeqMessage)
    requires Inv(w) && AllDelivered(w) && p in w.nodes && q in w.nodes && Decided(w, d) && Decided(w, d')
    requires w.nodes[p].delivered == w.nodes[q].delivered
    ensures Ahead(w.nodes[p], d', d) <==> Ahead(w.nodes[q], d', d)
    ensures Precedes(w.nodes[p], d, d') <==> Precedes(w.nodes[q], d, d')
  {
    hide Inv, AllDelivered, Decided, Ahead, Cmp, Precedes;
    if Precedes(w.nodes[p], d, d') { SameListPrecedes(w.nodes[p], w.nodes[q], d, d'); }
    if Precedes(w.nodes[q], d, d') { SameListPrecedes(w.nodes[q], w.nodes[p], d, d'); }
    var i := DecidedIsDelivered(w, p, d);
    var j := DecidedIsDelivered(w, p, d');
    AheadExactly(w, p, i, j);
    AheadExactly(w, q, i, j);
  }

  /** Once everything is delivered, all processes have the same list exactly if the same messages got
      ahead of the same ones at all of them, and ties came out alike. */
  lemma EqualExactlyWhenAlike(w: World)
    requires Reachable(w) && AllDelivered(w)
    ensures (forall p, q :: p in w.nodes && q in w.nodes ==> w.nodes[p].delivered == w.nodes[q].delivered)
            <==> AheadEverywhereOrNowhere(w) && TiesAlike(w)
  {
    hide Reachable, Inv, AllDelivered, Ahead, Decided, Precedes, Tied;
    ReachableInv(w);
    if AheadEverywhereOrNowhere(w) && TiesAlike(w) {
      hide AheadEverywhereOrNowhere, TiesAlike, NoRepeats, SameOrder;
      forall p, q | p in w.nodes && q in w.nodes ensures w.nodes[p].delivered == w.nodes[q].delivered {
        InvNoRepeats(w, p);
        InvNoRepeats(w, q);
        SameElements(w, p, q);
        SameElements(w, q, p);
        AlikeIsSameOrder(w, p, q);
        SameOrderIsEqual(w.nodes[p].delivered, w.nodes[q].delivered);
      }
    }
    if forall p, q :: p in w.nodes && q in w.nodes ==> w.nodes[p].delivered == w.nodes[q].delivered {
      forall p, q, d, d' | p in w.nodes && q in w.nodes && Decided(w, d) && Decided(w, d')
        ensures Ahead(w.nodes[p], d', d) <==> Ahead(w.nodes[q], d', d)
        ensures Precedes(w.nodes[p], d, d') <==> Precedes(w.nodes[q], d, d')
      {
        EqualIsAlike(w, p, q, d, d');
      }
    }
  }

  /** When no two messages share their final number and proposer, only what got ahead matters. */
  lemma EqualExactlyWhenAheadAlike(w: World)
    requires Reachable(w) && DistinctPairs(w) && AllDelivered(w)
    ensures (forall p, q :: p in w.nodes && q in w.nodes ==> w.nodes[p].delivered == w.nodes[q].delivered)
            <==> AheadEverywhereOrNowhere(w)
  {
    hide Reachable, AllDelivered, AheadEverywhereOrNowhere, Precedes, Decided, Smaller;
    EqualExactlyWhenAlike(w);
  }

  // ---------- when the numbers alone are distinct ----------

  ghost predicate DistinctFinals(w: World) {
    forall d, d' :: Decided(w, d) && Decided(w, d') && d.Key() != d'.Key() ==> d.finalSeq != d'.finalSeq
  }

  /** Then nothing can be overtaken, and only lateness matters. */
  lemma DistinctFinalsSuffice(w: World)
    requires Inv(w) && DistinctFinals(w)
    ensures DistinctPairs(w) && NobodyOvertaken(w)
  {
    hide Inv, Decided;
    forall p, d, d' | p in w.nodes && Decided(w, d) && Decided(w, d') ensures !Overtaken(w.nodes[p], d', d) {
      if d.Key() == d'.Key() { DecidedOnce(w, d, d'); }
    }
  }

  /** Total order for every run in which the clocks keep ahead of the deliveries and no final number
      is used twice. */
  lemma TotalOrderWhenNumbersDiffer(run: seq<World>, p: nat, q: nat)
    requires IsRun(run) && WellClocked(run)
    requires var w := run[|run| - 1]; DistinctFinals(w) && p in w.nodes && q in w.nodes
    ensures var w := run[|run| - 1];
            w.nodes[p].delivered <= w.nodes[q].delivered || w.nodes[q].delivered <= w.nodes[p].delivered
  {
    RunInv(run, |run| - 1);
    hide WellClocked, DistinctFinals, DistinctPairs, NobodyOvertaken, Inv;
    DistinctFinalsSuffice(run[|run| - 1]);
    hide IsRun;
    TotalOrderWhenWellClocked(run, p, q);
  }
}
