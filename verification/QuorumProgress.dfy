/**
 What the voting rules allow a quorum of honest validators to do: certify a block, time out a round, and commit the
 block that follows a timeout. Safety alone would also hold of rules that refuse everything.
 */
module QuorumProgress {
  import opened Wrappers
  import opened Quorum
  import opened EpochChange
  import opened SafetyRules
  import opened SigningRules
  import opened TwoChain

  /** Steps from one cluster to another. */
  ghost predicate Path(h: History, cs: seq<Cluster>, acts: seq<Action>) {
    && |cs| == |acts| + 1
    && forall i {:trigger acts[i]} :: 0 <= i < |acts| ==>
         Enabled(h, cs[i], acts[i]) && cs[i + 1] == Apply(h, cs[i], acts[i])
  }

  ghost predicate Leads(h: History, c: Cluster, c': Cluster) {
    exists cs: seq<Cluster>, acts: seq<Action> :: Path(h, cs, acts) && cs[0] == c && cs[|acts|] == c'
  }

  lemma StaysPut(h: History, c: Cluster)
    ensures Leads(h, c, c)
  {
    assert Path(h, [c], []) && [c][0] == c;
  }

  lemma OneStep(h: History, c: Cluster, a: Action, c': Cluster)
    requires Enabled(h, c, a) && Leads(h, Apply(h, c, a), c')
    ensures Leads(h, c, c')
  {
    var cs: seq<Cluster>, acts: seq<Action> :| Path(h, cs, acts) && cs[0] == Apply(h, c, a) && cs[|acts|] == c';
    var ds, more := [c] + cs, [a] + acts;
    forall i | 0 <= i < |more| ensures Enabled(h, ds[i], more[i]) && ds[i + 1] == Apply(h, ds[i], more[i]) {
      if i > 0 { assert more[i] == acts[i - 1] && ds[i] == cs[i - 1]; }
    }
    assert Path(h, ds, more) && ds[0] == c && ds[|more|] == c';
  }

  lemma {:induction false} Onwards(h: History, c: Cluster, d: Cluster, c': Cluster, cs: seq<Cluster>, acts: seq<Action>)
    requires Path(h, cs, acts) && cs[0] == c && cs[|acts|] == d && Leads(h, d, c')
    ensures Leads(h, c, c')
    decreases |acts|
  {
    if acts != [] {
      assert acts[0] == acts[0];
      forall i | 0 <= i < |acts[1..]|
        ensures Enabled(h, cs[1..][i], acts[1..][i]) && cs[1..][i + 1] == Apply(h, cs[1..][i], acts[1..][i])
      {
        assert acts[1..][i] == acts[i + 1];
      }
      Onwards(h, cs[1], d, c', cs[1..], acts[1..]);
      OneStep(h, c, acts[0], c');
    }
  }

  lemma LeadsOn(h: History, c: Cluster, d: Cluster, c': Cluster)
    requires Leads(h, c, d) && Leads(h, d, c')
    ensures Leads(h, c, c')
  {
    var cs: seq<Cluster>, acts: seq<Action> :| Path(h, cs, acts) && cs[0] == c && cs[|acts|] == d;
    Onwards(h, c, d, c', cs, acts);
  }

  /** The validator can sign in epoch `e`. */
  predicate AbleIn(h: History, n: Node, e: nat) {
    n.signer.Some? && n.data.epoch == e && n.epochState == Some(StateOf(h, e))
  }

  ghost predicate AllAble(h: History, c: Cluster, who: set<Author>, e: nat) {
    forall a :: a in who ==> a in c.nodes && c.nodes[a].author == a && AbleIn(h, c.nodes[a], e)
  }

  /** Nobody outside `who` has moved. */
  ghost predicate OthersStay(c: Cluster, c': Cluster, who: set<Author>) {
    c'.nodes.Keys == c.nodes.Keys && forall a :: a in c.nodes && a !in who ==> c'.nodes[a] == c.nodes[a]
  }

  // ---------------------------------------------------------------------------------------------
  // Voting
  // ---------------------------------------------------------------------------------------------

  /** The block can be voted on, in its round, by whoever has not voted there. */
  ghost predicate Votable(h: History, sigs: set<Signed>, b: Block, tc: Option<TimeoutCert>) {
    && b.Child? && b.qc.certified.epoch == b.epoch && b.qc.certified.Round() < b.childRound <= U64_MAX
    && QcValid(h(b.epoch), sigs, b.qc)
    && (tc.Some? ==> tc.value.timeout.epoch == b.epoch && TcValid(h(b.epoch), sigs, tc.value))
    && Justified(b.childRound, b.qc.certified.Round(), tc)
  }

  predicate NotVoted(n: Node, b: Block) {
    n.data.lastVotedRound < b.Round() && !VotedIn(n, b.Round())
  }

  function CommitOf(b: Block): Option<Block>
    requires b.Child?
  {
    if b.childRound == b.qc.certified.Round() + 1 then Some(b.qc.certified) else None
  }

  /** A validator that has voted for `b`, and is otherwise as it was. */
  ghost predicate HasVoted(n: Node, n': Node, b: Block)
    requires b.Child?
  {
    && n'.author == n.author && n'.signer == n.signer && n'.epochState == n.epochState && n'.data.epoch == n.data.epoch
    && n'.data.lastVotedRound == b.Round() && n'.data.highestTimeoutRound == n.data.highestTimeoutRound
    && n'.data.oneChainRound == Max(n.data.oneChainRound, b.qc.certified.Round())
  }

  lemma OneVotes(h: History, c: Cluster, a: Author, b: Block, tc: Option<TimeoutCert>) returns (c': Cluster)
    requires AllAble(h, c, {a}, b.epoch) && Votable(h, c.sigs, b, tc) && NotVoted(c.nodes[a], b)
    ensures Leads(h, c, c') && c'.sigs == c.sigs + {SVote(a, b, CommitOf(b))} && OthersStay(c, c', {a})
    ensures HasVoted(c.nodes[a], c'.nodes[a], b)
  {
    var p := VoteProposal(b, true, true, true);
    c' := Apply(h, c, ActVote(a, p, tc));
    VotesExactly(c.nodes[a], c.sigs, p, tc);
    NewVoteIs(c.nodes[a], c.sigs, p, tc);
    StaysPut(h, c');
    OneStep(h, c, ActVote(a, p, tc), c');
  }

  lemma StillVotable(h: History, sigs: set<Signed>, more: set<Signed>, b: Block, tc: Option<TimeoutCert>)
    requires Votable(h, sigs, b, tc) && sigs <= more
    ensures Votable(h, more, b, tc)
  {
    QcMonotone(h(b.epoch), sigs, more, b.qc);
    if tc.Some? { TcMonotone(h(b.epoch), sigs, more, tc.value); }
  }

  /** All of them vote, one after the other. */
  lemma {:induction false} AllVote(h: History, c: Cluster, who: set<Author>, b: Block, tc: Option<TimeoutCert>)
      returns (c': Cluster)
    requires AllAble(h, c, who, b.epoch) && Votable(h, c.sigs, b, tc)
    requires forall a :: a in who ==> NotVoted(c.nodes[a], b)
    ensures Leads(h, c, c') && c.sigs <= c'.sigs && OthersStay(c, c', who)
    ensures forall a :: a in who ==> SVote(a, b, CommitOf(b)) in c'.sigs && HasVoted(c.nodes[a], c'.nodes[a], b)
    decreases who
  {
    if who == {} {
      c' := c;
      StaysPut(h, c);
    } else {
      var a :| a in who;
      var rest := who - {a};
      var d := OneVotes(h, c, a, b, tc);
      StillVotable(h, c.sigs, d.sigs, b, tc);
      assert forall o :: o in rest ==> d.nodes[o] == c.nodes[o];
      c' := AllVote(h, d, rest, b, tc);
      LeadsOn(h, c, d, c');
      assert c'.nodes[a] == d.nodes[a] && SVote(a, b, CommitOf(b)) in c'.sigs;
    }
  }

  /** A block that all of a quorum can vote on gets certified. */
  lemma GetsCertified(h: History, c: Cluster, who: set<Author>, b: Block, tc: Option<TimeoutCert>) returns (c': Cluster)
    requires AllAble(h, c, who, b.epoch) && Votable(h, c.sigs, b, tc) && h(b.epoch).IsQuorum(who)
    requires forall a :: a in who ==> NotVoted(c.nodes[a], b)
    ensures Leads(h, c, c') && c.sigs <= c'.sigs && OthersStay(c, c', who)
    ensures QcValid(h(b.epoch), c'.sigs, QuorumCert(b, CommitOf(b), who)) && Certified(h, c'.sigs, b)
    ensures forall a :: a in who ==> HasVoted(c.nodes[a], c'.nodes[a], b)
  {
    c' := AllVote(h, c, who, b, tc);
    GatheredVotes(h(b.epoch), c'.sigs, b, CommitOf(b), who);
    assert QuorumCert(b, CommitOf(b), who).certified == b;
  }

  // ---------------------------------------------------------------------------------------------
  // Timing out
  // ---------------------------------------------------------------------------------------------

  /** The round follows the certificate that comes with the timeout. */
  ghost predicate CanTimeOut(h: History, sigs: set<Signed>, t: Timeout) {
    && t.round == t.qc.certified.Round() + 1 && t.round <= U64_MAX && QcValid(h(t.epoch), sigs, t.qc)
  }

  predicate NotPast(n: Node, t: Timeout) {
    n.data.oneChainRound <= t.qc.certified.Round() && n.data.lastVotedRound <= t.round
  }

  /** A validator that has timed out, and is otherwise as it was. */
  ghost predicate HasTimedOut(n: Node, n': Node, t: Timeout) {
    && n'.author == n.author && n'.signer == n.signer && n'.epochState == n.epochState && n'.data.epoch == n.data.epoch
    && n'.data.lastVotedRound == t.round && n'.data.lastVote == n.data.lastVote
    && n'.data.highestTimeoutRound == Max(n.data.highestTimeoutRound, t.round)
  }

  lemma OneTimesOut(h: History, c: Cluster, a: Author, t: Timeout) returns (c': Cluster)
    requires AllAble(h, c, {a}, t.epoch) && CanTimeOut(h, c.sigs, t) && NotPast(c.nodes[a], t)
    ensures Leads(h, c, c') && OthersStay(c, c', {a})
    ensures c'.sigs == c.sigs + {STimeout(a, t.epoch, t.round, t.qc.certified.Round())}
    ensures HasTimedOut(c.nodes[a], c'.nodes[a], t)
  {
    c' := Apply(h, c, ActTimeout(a, t, None));
    TimesOutExactly(c.nodes[a], c.sigs, t, None);
    TimeoutIs(c.nodes[a], c.sigs, t, None);
    StaysPut(h, c');
    OneStep(h, c, ActTimeout(a, t, None), c');
  }

  lemma {:induction false} AllTimeOut(h: History, c: Cluster, who: set<Author>, t: Timeout) returns (c': Cluster)
    requires AllAble(h, c, who, t.epoch) && CanTimeOut(h, c.sigs, t)
    requires forall a :: a in who ==> NotPast(c.nodes[a], t)
    ensures Leads(h, c, c') && c.sigs <= c'.sigs && OthersStay(c, c', who)
    ensures forall a :: a in who ==>
              && STimeout(a, t.epoch, t.round, t.qc.certified.Round()) in c'.sigs
              && HasTimedOut(c.nodes[a], c'.nodes[a], t)
    decreases who
  {
    if who == {} {
      c' := c;
      StaysPut(h, c);
    } else {
      var a :| a in who;
      var rest := who - {a};
      var d := OneTimesOut(h, c, a, t);
      QcMonotone(h(t.epoch), c.sigs, d.sigs, t.qc);
      assert forall o :: o in rest ==> d.nodes[o] == c.nodes[o];
      c' := AllTimeOut(h, d, rest, t);
      LeadsOn(h, c, d, c');
      assert c'.nodes[a] == d.nodes[a];
    }
  }

  /** The timeout certificate of all of `who`. */
  function CertOf(t: Timeout, who: set<Author>): TimeoutCert {
    TimeoutCert(t, map a | a in who :: t.qc.certified.Round())
  }

  /** A round that all of a quorum can leave gets its timeout certificate. */
  lemma GetsTimedOut(h: History, c: Cluster, who: set<Author>, t: Timeout) returns (c': Cluster)
    requires AllAble(h, c, who, t.epoch) && CanTimeOut(h, c.sigs, t) && h(t.epoch).IsQuorum(who) && who != {}
    requires forall a :: a in who ==> NotPast(c.nodes[a], t)
    ensures Leads(h, c, c') && c.sigs <= c'.sigs && OthersStay(c, c', who)
    ensures TcValid(h(t.epoch), c'.sigs, CertOf(t, who))
    ensures forall a :: a in who ==> HasTimedOut(c.nodes[a], c'.nodes[a], t)
  {
    c' := AllTimeOut(h, c, who, t);
    QcMonotone(h(t.epoch), c.sigs, c'.sigs, t.qc);
    var a :| a in who;
    assert CertOf(t, who).signed.Keys == who;
    GatheredTimeouts(h(t.epoch), c'.sigs, t, CertOf(t, who).signed, a);
  }

  // ---------------------------------------------------------------------------------------------
  // Ordering
  // ---------------------------------------------------------------------------------------------

  lemma OneOrders(h: History, c: Cluster, a: Author, b: Block, qc: QuorumCert) returns (c': Cluster)
    requires AllAble(h, c, {a}, b.epoch) && qc.certified == b && QcValid(h(b.epoch), c.sigs, qc)
    requires c.nodes[a].data.highestTimeoutRound < b.Round()
    ensures Leads(h, c, c') && c'.sigs == c.sigs + {SOrder(a, b)} && OthersStay(c, c', {a})
  {
    c' := Apply(h, c, ActOrderVote(a, b, qc));
    OrdersExactly(c.nodes[a], c.sigs, b, qc);
    StaysPut(h, c');
    OneStep(h, c, ActOrderVote(a, b, qc), c');
  }

  lemma {:induction false} AllOrder(h: History, c: Cluster, who: set<Author>, b: Block, qc: QuorumCert)
      returns (c': Cluster)
    requires AllAble(h, c, who, b.epoch) && qc.certified == b && QcValid(h(b.epoch), c.sigs, qc)
    requires forall a :: a in who ==> c.nodes[a].data.highestTimeoutRound < b.Round()
    ensures Leads(h, c, c') && c.sigs <= c'.sigs
    ensures forall a :: a in who ==> SOrder(a, b) in c'.sigs
    decreases who
  {
    if who == {} {
      c' := c;
      StaysPut(h, c);
    } else {
      var a :| a in who;
      var rest := who - {a};
      var d := OneOrders(h, c, a, b, qc);
      QcMonotone(h(b.epoch), c.sigs, d.sigs, qc);
      assert forall o :: o in rest ==> d.nodes[o] == c.nodes[o];
      c' := AllOrder(h, d, rest, b, qc);
      LeadsOn(h, c, d, c');
    }
  }

  /** A certified block that all of a quorum can order gets committed. */
  lemma GetsCommitted(h: History, c: Cluster, who: set<Author>, b: Block, qc: QuorumCert) returns (c': Cluster)
    requires AllAble(h, c, who, b.epoch) && qc.certified == b && QcValid(h(b.epoch), c.sigs, qc)
    requires h(b.epoch).IsQuorum(who)
    requires forall a :: a in who ==> c.nodes[a].data.highestTimeoutRound < b.Round()
    ensures Leads(h, c, c') && c.sigs <= c'.sigs && Committed(h, c'.sigs, b)
  {
    c' := AllOrder(h, c, who, b, qc);
    assert OrderedBy(h, c'.sigs, b, who);
  }

  // ---------------------------------------------------------------------------------------------
  // After a timeout
  // ---------------------------------------------------------------------------------------------

  /** The validator is in the round after `qc`: it knows nothing newer, and has neither voted nor timed out beyond. */
  predicate InRoundAfter(n: Node, qc: QuorumCert) {
    && n.data.oneChainRound <= qc.certified.Round()
    && n.data.lastVotedRound <= qc.certified.Round() + 1
    && n.data.highestTimeoutRound <= qc.certified.Round() + 1
    && !VotedIn(n, qc.certified.Round() + 2)
  }

  /** The block proposed on `qc` in the round after the one that timed out. */
  function Skipping(qc: QuorumCert, id: nat): Block {
    Child(qc.certified.epoch, qc.certified.Round() + 2, id, qc)
  }

  /** A block that all of a quorum can vote on and order gets committed. */
  lemma VotedIsCommitted(h: History, c: Cluster, who: set<Author>, b: Block, tc: Option<TimeoutCert>)
      returns (c': Cluster)
    requires AllAble(h, c, who, b.epoch) && Votable(h, c.sigs, b, tc) && h(b.epoch).IsQuorum(who)
    requires forall a :: a in who ==> NotVoted(c.nodes[a], b) && c.nodes[a].data.highestTimeoutRound < b.Round()
    ensures Leads(h, c, c') && Committed(h, c'.sigs, b)
  {
    var d := GetsCertified(h, c, who, b, tc);
    c' := GetsCommitted(h, d, who, b, QuorumCert(b, CommitOf(b), who));
    LeadsOn(h, c, d, c');
  }

  /**
   A quorum in the round after a certificate can let that round time out and commit a block in the next one, which still
   builds on the old certificate: the timeout certificate alone justifies it.
   */
  lemma CommitsAfterTimeout(h: History, c: Cluster, who: set<Author>, qc: QuorumCert, id: nat) returns (c': Cluster)
    requires AllAble(h, c, who, qc.certified.epoch) && h(qc.certified.epoch).IsQuorum(who) && who != {}
    requires QcValid(h(qc.certified.epoch), c.sigs, qc) && qc.certified.Round() + 2 <= U64_MAX
    requires forall a :: a in who ==> InRoundAfter(c.nodes[a], qc)
    ensures Leads(h, c, c') && Committed(h, c'.sigs, Skipping(qc, id))
  {
    var t := Timeout(qc.certified.epoch, qc.certified.Round() + 1, qc);
    var b := Skipping(qc, id);
    var d := GetsTimedOut(h, c, who, t);
    QcMonotone(h(b.epoch), c.sigs, d.sigs, qc);
    c' := VotedIsCommitted(h, d, who, b, Some(CertOf(t, who)));
    LeadsOn(h, c, d, c');
  }

  lemma RunGoesOn(h: History, cs: seq<Cluster>, acts: seq<Action>, ds: seq<Cluster>, more: seq<Action>)
    requires Run(h, cs, acts) && Path(h, ds, more) && ds[0] == cs[|acts|]
    ensures Run(h, cs + ds[1..], acts + more)
  {
    var all, steps := cs + ds[1..], acts + more;
    forall i | 0 <= i < |steps| ensures Enabled(h, all[i], steps[i]) && all[i + 1] == Apply(h, all[i], steps[i]) {
      if i >= |acts| {
        assert more[i - |acts|] == steps[i] && all[i] == ds[i - |acts|] && all[i + 1] == ds[i - |acts| + 1];
      }
    }
  }

  /** In a run the stored vote is never above the last voted round. */
  lemma NoVoteAbove(h: History, c: Cluster, a: Author, round: nat)
    requires Inv(h, c) && a in c.nodes && c.nodes[a].data.lastVotedRound < round
    ensures !VotedIn(c.nodes[a], round)
  {
    var n := c.nodes[a];
    assert NodeOk(h, c.sigs, n);
    if n.data.lastVote.Some? { assert Covers(n.data, n.data.lastVote.value); }
  }

  /**
   No run gets stuck by a timeout: whenever an honest quorum is in the round after a certificate, the run can go on so
   that this round times out and the next block on that certificate is committed.
   */
  lemma RunsCommitAfterTimeout(h: History, cs: seq<Cluster>, acts: seq<Action>, who: set<Author>, qc: QuorumCert,
                               id: nat)
    requires Run(h, cs, acts)
    requires AllAble(h, cs[|acts|], who, qc.certified.epoch) && h(qc.certified.epoch).IsQuorum(who) && who != {}
    requires QcValid(h(qc.certified.epoch), cs[|acts|].sigs, qc) && qc.certified.Round() + 2 <= U64_MAX
    requires forall a :: a in who ==>
               && cs[|acts|].nodes[a].data.oneChainRound <= qc.certified.Round()
               && cs[|acts|].nodes[a].data.lastVotedRound <= qc.certified.Round() + 1
               && cs[|acts|].nodes[a].data.highestTimeoutRound <= qc.certified.Round() + 1
    ensures exists ds: seq<Cluster>, more: seq<Action> ::
              Run(h, ds, more) && cs <= ds && acts <= more && Committed(h, ds[|more|].sigs, Skipping(qc, id))
  {
    var c := cs[|acts|];
    RunKeepsInv(h, cs, acts, |acts|);
    forall a | a in who ensures InRoundAfter(c.nodes[a], qc) { NoVoteAbove(h, c, a, qc.certified.Round() + 2); }
    var c' := CommitsAfterTimeout(h, c, who, qc, id);
    var ds: seq<Cluster>, more: seq<Action> :| Path(h, ds, more) && ds[0] == c && ds[|more|] == c';
    RunGoesOn(h, cs, acts, ds, more);
    assert (cs + ds[1..])[|acts + more|] == c';
  }
}
