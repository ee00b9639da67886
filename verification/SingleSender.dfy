/** When two messages can end up under the same final number and proposer. */
module SingleSender {
  import opened Messages
  import opened NodeSpec
  import opened NodeInvariant
  import opened Machine
  import opened Invariant
  import opened Agreement
  import opened TotalOrder
  import opened PrefixOrder

  /** Two messages share number and proposer only if the proposer multicast exactly one of them. */
  lemma SharedFinalIsOwnAndForeign(w: World, d: SeqMessage, d': SeqMessage)
    requires Reachable(w) && Decided(w, d) && Decided(w, d') && d.Key() != d'.Key()
    requires d.finalSeq == d'.finalSeq && d.finalSeqProposer == d'.finalSeqProposer
    ensures (d.sender == d.finalSeqProposer) != (d'.sender == d.finalSeqProposer)
  {
    hide Inv, Decided;
    ReachableInv(w);
    DecidedIsMax(w, d);
    DecidedIsMax(w, d');
    ProposalsAreDistinct(w, d.finalSeqProposer, d.Key(), d'.Key());
  }

  /** A process proposes one number twice only for a message of its own and one of another's. */
  lemma ProposalsAreDistinct(w: World, p: nat, m: MsgKey, m': MsgKey)
    requires Inv(w) && p in w.nodes && m in w.nodes[p].accepted && m' in w.nodes[p].accepted && m != m'
    requires w.nodes[p].accepted[m].proposal == w.nodes[p].accepted[m'].proposal
    ensures (m.sender == p) != (m'.sender == p)
  {
    hide OwnOk, AckedOk, SelfOk, SeqsOk, DecisionsOk, QueueOk, CrossOk, NetOk;
    assert Local(w.hosts, w.nodes[p]);
  }

  ghost predicate OnlySender(w: World, s: nat) {
    forall p :: p in w.nodes && p != s ==> w.nodes[p].dataHistory == map[]
  }

  /** With a single sender no process proposes a number twice, so no two messages share their
      final number and proposer: `Cmp` orders any two of them strictly. */
  lemma SingleSenderKeysAreUnique(w: World, s: nat, p: nat, m: MsgKey, m': MsgKey)
    requires Reachable(w) && OnlySender(w, s) && p in w.nodes
    requires m in w.nodes[p].accepted && m' in w.nodes[p].accepted && m != m'
    ensures w.nodes[p].accepted[m].proposal != w.nodes[p].accepted[m'].proposal
    ensures forall x, x' :: x in All(w.nodes[p]) && x' in All(w.nodes[p]) && x.Key() == m && x'.Key() == m'
              && x.status.Deliverable? && x'.status.Deliverable?
              ==> Cmp(x, x') != Cmp(x', x)
  {
    hide Inv, Decided;
    ReachableInv(w);
    MulticastByOnlySender(w, s, p, m);
    MulticastByOnlySender(w, s, p, m');
    if w.nodes[p].accepted[m].proposal == w.nodes[p].accepted[m'].proposal {
      ProposalsAreDistinct(w, p, m, m');
      assert false;
    }
    forall x, x' | x in All(w.nodes[p]) && x' in All(w.nodes[p]) && x.Key() == m && x'.Key() == m'
                   && x.status.Deliverable? && x'.status.Deliverable?
      ensures Cmp(x, x') != Cmp(x', x)
    {
      EntryIsDecided(w, p, x);
      EntryIsDecided(w, p, x');
      if x.sequenceNumber == x'.sequenceNumber && x.proposer == x'.proposer {
        SharedFinalIsOwnAndForeign(w, Decision(x), Decision(x'));
        assert false;
      }
    }
  }

  /** So with a single sender nothing but late or overtaken messages can make the lists differ. */
  lemma SingleSenderEqualExactly(w: World, s: nat)
    requires Reachable(w) && OnlySender(w, s) && AllDelivered(w)
    ensures DistinctPairs(w)
    ensures (forall p, q :: p in w.nodes && q in w.nodes ==> w.nodes[p].delivered == w.nodes[q].delivered)
            <==> AheadEverywhereOrNowhere(w)
  {
    hide Reachable, AllDelivered, AheadEverywhereOrNowhere;
    SingleSenderPairs(w, s);
    EqualExactlyWhenAheadAlike(w);
  }

  lemma SingleSenderPairs(w: World, s: nat)
    requires Reachable(w) && OnlySender(w, s)
    ensures DistinctPairs(w)
  {
    hide Reachable, Inv, Decided, OnlySender, Smaller;
    ReachableInv(w);
    forall d, d' | Decided(w, d) && Decided(w, d') && d.Key() != d'.Key() ensures Smaller(d, d') || Smaller(d', d) {
      if d.finalSeq == d'.finalSeq && d.finalSeqProposer == d'.finalSeqProposer {
        SharedFinalIsOwnAndForeign(w, d, d');
        DecidedByOnlySender(w, s, d);
        DecidedByOnlySender(w, s, d');
        assert false;
      }
      PairsCompare(d, d');
    }
  }

  lemma PairsCompare(d: SeqMessage, d': SeqMessage)
    requires d.finalSeq != d'.finalSeq || d.finalSeqProposer != d'.finalSeqProposer
    ensures Smaller(d, d') || Smaller(d', d)
  {
  }

  lemma DecidedByOnlySender(w: World, s: nat, d: SeqMessage)
    requires Inv(w) && OnlySender(w, s) && Decided(w, d)
    ensures d.sender == s
  {
    hide Inv, Decided, OnlySender;
    DecidedIsMax(w, d);
    assert Decided(w, d) ==> d.sender in w.nodes by { DecidedHere(w, d); }
    OwnProposalBelow(w, d.sender, d);
    MulticastByOnlySender(w, s, d.sender, d.Key());
  }

  lemma DecidedHere(w: World, d: SeqMessage)
    requires Decided(w, d)
    ensures d.sender in w.nodes
  {
  }

  lemma MulticastByOnlySender(w: World, s: nat, p: nat, m: MsgKey)
    requires Inv(w) && OnlySender(w, s) && p in w.nodes && m in w.nodes[p].accepted
    ensures m.sender == s
  {
    hide Local, NetOk;
    assert CrossOk(w.nodes, p);
  }
}
