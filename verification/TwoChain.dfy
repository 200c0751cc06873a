/**
 Commit safety of the two-chain protocol with order votes, for every run.

 Honest validators run the operations of `SafetyRules`, restart and re-initialise at any time, and see
 arbitrary proposals; everyone else may sign anything. Two assumptions concern the callers of the rules:
 the round manager passes timeout certificates of its own epoch, and when signature checks are skipped
 the certificates it passes have been verified before.
 */
module TwoChain {
  import opened Wrappers
  import opened Quorum
  import opened EpochChange
  import opened SafetyRules

  /** The honest validators and every signature made so far, by anyone. */
  datatype Cluster = Cluster(nodes: map<Author, Node>, sigs: set<Signed>)

  datatype Action =
    | ActVote(who: Author, p: VoteProposal, tc: Option<TimeoutCert>)
    | ActTimeout(who: Author, t: Timeout, tc: Option<TimeoutCert>)
    | ActOrderVote(who: Author, block: Block, qc: QuorumCert)
    | ActPropose(who: Author, block: Block)
    | ActInitialize(who: Author, proof: EpochChangeProof)
    | ActRestart(who: Author)
    | ActFaulty(msg: Signed)

  /** Less than a third of every epoch's voting power is faulty. */
  ghost predicate Tolerable(h: History, honest: set<Author>) {
    forall e :: h(e).Tolerates(h(e).Authors() - honest)
  }

  predicate CallerQc(h: History, c: Cluster, n: Node, qc: QuorumCert) {
    n.skipSigVerify ==> QcValid(h(n.data.epoch), c.sigs, qc)
  }

  predicate CallerTc(h: History, c: Cluster, n: Node, tc: Option<TimeoutCert>) {
    tc.Some? ==>
      && tc.value.timeout.epoch == n.data.epoch
      && (n.skipSigVerify ==> TcValid(h(n.data.epoch), c.sigs, tc.value))
  }

  predicate Enabled(h: History, c: Cluster, a: Action) {
    match a
    case ActVote(who, p, tc) =>
      who in c.nodes && CallerQc(h, c, c.nodes[who], p.block.Qc()) && CallerTc(h, c, c.nodes[who], tc)
    case ActTimeout(who, t, tc) => who in c.nodes && CallerTc(h, c, c.nodes[who], tc)
    case ActOrderVote(who, block, qc) => who in c.nodes && CallerQc(h, c, c.nodes[who], qc)
    case ActPropose(who, block) => who in c.nodes
    case ActInitialize(who, proof) => who in c.nodes && GenuineProof(h, proof)
    case ActRestart(who) => who in c.nodes
    case ActFaulty(msg) => msg.author !in c.nodes
  }

  function Publish(c: Cluster, who: Author, out: (Node, Result<Signed, Error>)): Cluster {
    Cluster(c.nodes[who := out.0], if out.1.Ok? then c.sigs + {out.1.value} else c.sigs)
  }

  function Apply(h: History, c: Cluster, a: Action): Cluster
    requires !a.ActFaulty? ==> a.who in c.nodes
  {
    match a
    case ActVote(who, p, tc) => Publish(c, who, VoteOp(c.nodes[who], c.sigs, p, tc))
    case ActTimeout(who, t, tc) => Publish(c, who, TimeoutOp(c.nodes[who], c.sigs, t, tc))
    case ActOrderVote(who, block, qc) => Publish(c, who, OrderVoteOp(c.nodes[who], c.sigs, block, qc))
    case ActPropose(who, block) => Publish(c, who, ProposeOp(c.nodes[who], c.sigs, who, block))
    case ActInitialize(who, proof) => c.(nodes := c.nodes[who := InitializeOp(c.nodes[who], proof).0])
    case ActRestart(who) => c.(nodes := c.nodes[who := Restart(c.nodes[who])])
    case ActFaulty(msg) => c.(sigs := c.sigs + {msg})
  }

  predicate Init(h: History, c: Cluster) {
    && c.sigs == {}
    && forall a :: a in c.nodes ==>
         && c.nodes[a].author == a
         && c.nodes[a].data == FreshData(c.nodes[a].data.epoch)
         && c.nodes[a].epochState.None?
         && GenuineWaypoint(h, c.nodes[a].waypoint)
  }

  ghost predicate Run(h: History, cs: seq<Cluster>, acts: seq<Action>) {
    && |cs| == |acts| + 1
    && Init(h, cs[0])
    && Tolerable(h, cs[0].nodes.Keys)
    && forall i :: 0 <= i < |acts| ==> Enabled(h, cs[i], acts[i]) && cs[i + 1] == Apply(h, cs[i], acts[i])
  }

  // ---------------------------------------------------------------------------------------------
  // What it means to be committed
  // ---------------------------------------------------------------------------------------------

  predicate Extends(b: Block, ancestor: Block) {
    b == ancestor || (b.Child? && Extends(b.qc.certified, ancestor))
  }

  ghost predicate Certified(h: History, sigs: set<Signed>, b: Block) {
    exists qc: QuorumCert :: qc.certified == b && QcValid(h(b.epoch), sigs, qc)
  }

  /** The two-chain rule: a certificate whose signed ledger info names `b`. */
  ghost predicate CommittedByQc(h: History, sigs: set<Signed>, b: Block) {
    exists qc: QuorumCert :: qc.certified.Child? && qc.commit == Some(b) && QcValid(h(qc.certified.epoch), sigs, qc)
  }

  ghost predicate OrderedBy(h: History, sigs: set<Signed>, b: Block, signers: set<Author>) {
    h(b.epoch).IsQuorum(signers) && forall a :: a in signers ==> SOrder(a, b) in sigs
  }

  /** Committed by the two-chain rule, or ordered by a quorum of order votes. */
  ghost predicate Committed(h: History, sigs: set<Signed>, b: Block) {
    CommittedByQc(h, sigs, b) || exists signers :: OrderedBy(h, sigs, b, signers)
  }

  // ---------------------------------------------------------------------------------------------
  // Invariant
  // ---------------------------------------------------------------------------------------------

  /** A timeout certificate of the round before `b` that allows `b`'s parent. */
  ghost predicate JustifiedBy(h: History, sigs: set<Signed>, b: Block, tc: TimeoutCert) {
    && TcValid(h(b.epoch), sigs, tc)
    && tc.timeout.epoch == b.epoch
    && tc.Round() + 1 == b.Round()
    && tc.HighestHqcRound() <= b.Parent().Round()
  }

  /** What an honest signature says about the certificates behind it. */
  ghost predicate MsgSound(h: History, sigs: set<Signed>, m: Signed) {
    match m
    case SVote(_, b, commit) =>
      && b.Child?
      && b.Parent().Round() < b.Round()
      && b.Parent().epoch == b.epoch
      && QcValid(h(b.epoch), sigs, b.Qc())
      && CommitInfo(b) == Ok(commit)
      && (b.Round() == b.Parent().Round() + 1 || exists tc :: JustifiedBy(h, sigs, b, tc))
    case SOrder(_, b) => b.Round() > 0 && Certified(h, sigs, b)
    case _ => true
  }

  /** One author's votes are unique per round, and its timeouts carry certificates it is locked on. */
  predicate PairSound(m: Signed, o: Signed) {
    && (m.SVote? && o.SVote? && m.block.epoch == o.block.epoch && m.block.Round() == o.block.Round() ==> m == o)
    && (m.SVote? && o.STimeout? && m.block.epoch == o.epoch && o.round >= m.block.Round() ==>
          o.hqcRound >= m.block.Parent().Round())
    && (m.SOrder? && o.STimeout? && m.block.epoch == o.epoch && o.round >= m.block.Round() ==>
          o.hqcRound >= m.block.Round())
  }

  /** The author's persisted safety data accounts for everything it signed. */
  predicate Covers(d: SafetyData, m: Signed) {
    match m
    case SVote(_, b, _) =>
      b.epoch <= d.epoch &&
      (b.epoch == d.epoch ==> b.Round() <= d.lastVotedRound && b.Parent().Round() <= d.oneChainRound)
    case STimeout(_, e, round, _) =>
      e <= d.epoch && (e == d.epoch ==> round <= d.lastVotedRound && round <= d.highestTimeoutRound)
    case SOrder(_, b) =>
      b.epoch <= d.epoch && (b.epoch == d.epoch ==> b.Round() <= d.oneChainRound)
    case _ => true
  }

  predicate NodeOk(h: History, sigs: set<Signed>, n: Node) {
    && GenuineWaypoint(h, n.waypoint)
    && (n.epochState.Some? ==> n.epochState.value == StateOf(h, n.data.epoch))
    && (n.data.lastVote.Some? ==>
          n.data.lastVote.value.SVote? && n.data.lastVote.value.author == n.author
          && n.data.lastVote.value.block.epoch == n.data.epoch && n.data.lastVote.value in sigs)
  }

  ghost predicate SigsSound(h: History, honest: set<Author>, sigs: set<Signed>) {
    && (forall m :: m in sigs && m.author in honest ==> MsgSound(h, sigs, m))
    && (forall m, o :: m in sigs && o in sigs && m.author in honest && m.author == o.author ==> PairSound(m, o))
  }

  ghost predicate Inv(h: History, c: Cluster) {
    && Tolerable(h, c.nodes.Keys)
    && SigsSound(h, c.nodes.Keys, c.sigs)
    && (forall a :: a in c.nodes ==> c.nodes[a].author == a && NodeOk(h, c.sigs, c.nodes[a]))
    && (forall m :: m in c.sigs && m.author in c.nodes ==> Covers(c.nodes[m.author].data, m))
  }

  // ---------------------------------------------------------------------------------------------
  // The invariant holds in every reachable state
  // ---------------------------------------------------------------------------------------------

  lemma QcMonotone(v: Verifier, sigs: set<Signed>, more: set<Signed>, qc: QuorumCert)
    requires sigs <= more && QcValid(v, sigs, qc)
    ensures QcValid(v, more, qc)
  {
  }

  lemma TcMonotone(v: Verifier, sigs: set<Signed>, more: set<Signed>, tc: TimeoutCert)
    requires sigs <= more && TcValid(v, sigs, tc)
    ensures TcValid(v, more, tc)
  {
    QcMonotone(v, sigs, more, tc.timeout.qc);
  }

  lemma MsgSoundMonotone(h: History, sigs: set<Signed>, more: set<Signed>, m: Signed)
    requires sigs <= more && MsgSound(h, sigs, m)
    ensures MsgSound(h, more, m)
  {
    if m.SVote? {
      QcMonotone(h(m.block.epoch), sigs, more, m.block.Qc());
      if tc :| JustifiedBy(h, sigs, m.block, tc) {
        TcMonotone(h(m.block.epoch), sigs, more, tc);
        assert JustifiedBy(h, more, m.block, tc);
      }
    } else if m.SOrder? {
      var qc: QuorumCert :| qc.certified == m.block && QcValid(h(m.block.epoch), sigs, qc);
      QcMonotone(h(m.block.epoch), sigs, more, qc);
    }
  }

  lemma MessagesStaySound(h: History, honest: set<Author>, sigs: set<Signed>, x: Signed)
    requires SigsSound(h, honest, sigs) && (x.author in honest ==> MsgSound(h, sigs + {x}, x))
    ensures forall m :: m in sigs + {x} && m.author in honest ==> MsgSound(h, sigs + {x}, m)
  {
    forall m | m in sigs && m.author in honest ensures MsgSound(h, sigs + {x}, m) {
      MsgSoundMonotone(h, sigs, sigs + {x}, m);
    }
  }

  lemma PairsStaySound(h: History, honest: set<Author>, sigs: set<Signed>, x: Signed)
    requires SigsSound(h, honest, sigs) && PairSound(x, x)
    requires forall m :: m in sigs && m.author == x.author ==> PairSound(m, x) && PairSound(x, m)
    ensures forall m, o :: m in sigs + {x} && o in sigs + {x} && m.author in honest && m.author == o.author ==>
              PairSound(m, o)
  {
    forall m, o | m in sigs + {x} && o in sigs + {x} && m.author in honest && m.author == o.author
      ensures PairSound(m, o)
    {
      if m != x && o != x { assert m in sigs && o in sigs; }
    }
  }

  lemma NodesStayOk(h: History, c: Cluster, n: Node, x: Signed)
    requires Inv(h, c) && n.author in c.nodes && NodeOk(h, c.sigs + {x}, n)
    ensures var nodes := c.nodes[n.author := n];
            forall a :: a in nodes ==> nodes[a].author == a && NodeOk(h, c.sigs + {x}, nodes[a])
  {
  }

  /** An honest author signs one more message and moves to `n`. */
  lemma AddHonest(h: History, c: Cluster, n: Node, x: Signed)
    requires Inv(h, c) && n.author in c.nodes && x.author == n.author
    requires NodeOk(h, c.sigs + {x}, n)
    requires MsgSound(h, c.sigs + {x}, x) && Covers(n.data, x) && PairSound(x, x)
    requires forall m :: m in c.sigs && m.author == n.author ==>
               Covers(n.data, m) && PairSound(m, x) && PairSound(x, m)
    ensures Inv(h, Cluster(c.nodes[n.author := n], c.sigs + {x}))
  {
    MessagesStaySound(h, c.nodes.Keys, c.sigs, x);
    PairsStaySound(h, c.nodes.Keys, c.sigs, x);
    NodesStayOk(h, c, n, x);
    CoverStays(h, c, n, x);
    assert c.nodes[n.author := n].Keys == c.nodes.Keys;
    assert SigsSound(h, c.nodes.Keys, c.sigs + {x});
  }

  lemma CoverStays(h: History, c: Cluster, n: Node, x: Signed)
    requires Inv(h, c) && n.author in c.nodes && x.author == n.author && Covers(n.data, x)
    requires forall m :: m in c.sigs && m.author == n.author ==> Covers(n.data, m)
    ensures var nodes := c.nodes[n.author := n];
            forall m :: m in c.sigs + {x} && m.author in nodes ==> Covers(nodes[m.author].data, m)
  {
  }

  lemma AddFaulty(h: History, c: Cluster, x: Signed)
    requires Inv(h, c) && x.author !in c.nodes
    ensures Inv(h, c.(sigs := c.sigs + {x}))
  {
    forall m | m in c.sigs && m.author in c.nodes ensures MsgSound(h, c.sigs + {x}, m) {
      MsgSoundMonotone(h, c.sigs, c.sigs + {x}, m);
    }
  }

  /** A fresh vote is above every earlier vote and timeout, and its parent passes the two-chain rule. */
  ghost predicate FreshVote(h: History, c: Cluster, n: Node, b: Block, n': Node, x: Signed) {
    && x.SVote? && x.author == n.author && x.block == b && CommitInfo(b) == Ok(x.commit)
    && b.Child? && b.epoch == n.data.epoch && b.Parent().epoch == b.epoch
    && b.Parent().Round() < b.Round()
    && n.data.lastVotedRound < b.Round()
    && QcValid(h(b.epoch), c.sigs, b.Qc())
    && (b.Round() == b.Parent().Round() + 1 || exists tc :: JustifiedBy(h, c.sigs, b, tc))
    && n' == n.(data := ObserveQc(b.Qc(), n.data).(lastVotedRound := b.Round(), lastVote := Some(x)))
  }

  lemma VoteOutcome(h: History, c: Cluster, who: Author, p: VoteProposal, tc: Option<TimeoutCert>)
    requires Enabled(h, c, ActVote(who, p, tc)) && NodeOk(h, c.sigs, c.nodes[who])
    ensures var n := c.nodes[who];
            var (n', r) := VoteOp(n, c.sigs, p, tc);
            && (r.Err? ==> n' == n)
            && (r.Ok? ==> (n' == n && n.data.lastVote == Some(r.value)) || FreshVote(h, c, n, p.block, n', r.value))
  {
    var n := c.nodes[who];
    var (n', r) := VoteOp(n, c.sigs, p, tc);
    if r.Ok? && !(n' == n && n.data.lastVote == Some(r.value)) {
      if p.block.Round() != p.block.Parent().Round() + 1 {
        assert JustifiedBy(h, c.sigs, p.block, tc.value);
      }
    }
  }

  lemma FreshVoteIsFirst(h: History, c: Cluster, n: Node, b: Block, n': Node, x: Signed)
    requires Inv(h, c) && n.author in c.nodes && n == c.nodes[n.author] && FreshVote(h, c, n, b, n', x)
    ensures forall m :: m in c.sigs && m.author == n.author ==>
              Covers(n'.data, m) && PairSound(m, x) && PairSound(x, m)
  {
    forall m | m in c.sigs && m.author == n.author
      ensures Covers(n'.data, m) && PairSound(m, x) && PairSound(x, m)
    {
      AboveCovered(n.data, m, b, n'.data, x);
    }
  }

  /** A vote above everything the safety data covers is in line with each message covered. */
  lemma AboveCovered(d: SafetyData, m: Signed, b: Block, d': SafetyData, x: Signed)
    requires Covers(d, m) && x.SVote? && x.block == b && b.Child? && b.epoch == d.epoch && b.Parent().epoch == b.epoch
    requires d.lastVotedRound < b.Round()
    requires d' == ObserveQc(b.Qc(), d).(lastVotedRound := b.Round(), lastVote := Some(x))
    ensures Covers(d', m) && PairSound(m, x) && PairSound(x, m)
  {
  }

  lemma FreshVoteNode(h: History, c: Cluster, n: Node, b: Block, n': Node, x: Signed)
    requires NodeOk(h, c.sigs, n) && FreshVote(h, c, n, b, n', x)
    ensures n'.author == n.author && NodeOk(h, c.sigs + {x}, n')
    ensures MsgSound(h, c.sigs, x) && Covers(n'.data, x) && PairSound(x, x)
  {
  }

  lemma FreshVoteKeepsInv(h: History, c: Cluster, n: Node, b: Block, n': Node, x: Signed)
    requires Inv(h, c) && n.author in c.nodes && n == c.nodes[n.author] && FreshVote(h, c, n, b, n', x)
    ensures Inv(h, Cluster(c.nodes[n.author := n'], c.sigs + {x}))
  {
    FreshVoteNode(h, c, n, b, n', x);
    MsgSoundMonotone(h, c.sigs, c.sigs + {x}, x);
    FreshVoteIsFirst(h, c, n, b, n', x);
    AddHonest(h, c, n', x);
  }

  lemma VoteKeepsInv(h: History, c: Cluster, who: Author, p: VoteProposal, tc: Option<TimeoutCert>)
    requires Inv(h, c) && Enabled(h, c, ActVote(who, p, tc))
    ensures Inv(h, Publish(c, who, VoteOp(c.nodes[who], c.sigs, p, tc)))
  {
    var n := c.nodes[who];
    var (n', r) := VoteOp(n, c.sigs, p, tc);
    VoteOutcome(h, c, who, p, tc);
    if n' == n {
      assert c.nodes[who := n'] == c.nodes;
      if r.Ok? && n.data.lastVote == Some(r.value) {
        assert c.sigs + {r.value} == c.sigs;
      }
    }
    if r.Ok? && FreshVote(h, c, n, p.block, n', r.value) {
      FreshVoteKeepsInv(h, c, n, p.block, n', r.value);
    }
  }

  lemma TimeoutKeepsInv(h: History, c: Cluster, who: Author, t: Timeout, tc: Option<TimeoutCert>)
    requires Inv(h, c) && Enabled(h, c, ActTimeout(who, t, tc))
    ensures Inv(h, Publish(c, who, TimeoutOp(c.nodes[who], c.sigs, t, tc)))
  {
    var n := c.nodes[who];
    var (n', r) := TimeoutOp(n, c.sigs, t, tc);
    if r.Err? {
      assert c.nodes[who := n'] == c.nodes;
    } else {
      AddHonest(h, c, n', r.value);
    }
  }

  lemma OrderVoteKeepsInv(h: History, c: Cluster, who: Author, block: Block, qc: QuorumCert)
    requires Inv(h, c) && Enabled(h, c, ActOrderVote(who, block, qc))
    ensures Inv(h, Publish(c, who, OrderVoteOp(c.nodes[who], c.sigs, block, qc)))
  {
    var n := c.nodes[who];
    var (n', r) := OrderVoteOp(n, c.sigs, block, qc);
    if r.Err? {
      assert c.nodes[who := n'] == c.nodes;
    } else {
      QcMonotone(h(block.epoch), c.sigs, c.sigs + {r.value}, qc);
      AddHonest(h, c, n', r.value);
    }
  }

  /** What initialising may do to a node. */
  ghost predicate Initialised(h: History, n: Node, n': Node) {
    && n'.author == n.author
    && GenuineWaypoint(h, n'.waypoint)
    && n'.waypoint.version >= n.waypoint.version
    && (n'.data == n.data || (n'.data.epoch > n.data.epoch && n'.data == FreshData(n'.data.epoch)))
    && ((n'.epochState == n.epochState && n'.data == n.data)
        || n'.epochState == Some(StateOf(h, n'.data.epoch)))
  }

  lemma InstallKeepsData(h: History, n: Node, li: LedgerInfo)
    requires GenuineWaypoint(h, n.waypoint) && li.next == Some(StateOf(h, li.epoch + 1))
    ensures Initialised(h, n, Install(n, li).0)
  {
  }

  /** Initialising never forgets a vote: it either leaves the epoch's data alone or enters a later epoch. */
  lemma InitializeKeepsData(h: History, n: Node, proof: EpochChangeProof)
    requires GenuineWaypoint(h, n.waypoint) && GenuineProof(h, proof)
    ensures Initialised(h, n, InitializeOp(n, proof).0)
  {
    var verified := VerifyResult(proof, TrustWaypoint(n.waypoint));
    if verified.Ok? {
      VerifiedProofAgrees(h, TrustWaypoint(n.waypoint), proof);
      InstallKeepsData(h, n, verified.value);
    }
  }

  /** One honest node moves without signing. */
  lemma MoveNode(h: History, c: Cluster, n: Node)
    requires Inv(h, c) && n.author in c.nodes && NodeOk(h, c.sigs, n)
    requires forall m :: m in c.sigs && m.author == n.author ==> Covers(n.data, m)
    ensures Inv(h, c.(nodes := c.nodes[n.author := n]))
  {
    assert c.nodes[n.author := n].Keys == c.nodes.Keys;
  }

  /** A later epoch's fresh data cover whatever was signed before. */
  lemma InitialisedCovers(h: History, n: Node, n': Node, m: Signed)
    requires Initialised(h, n, n') && Covers(n.data, m)
    ensures Covers(n'.data, m)
  {
  }

  lemma InitializeKeepsInv(h: History, c: Cluster, who: Author, proof: EpochChangeProof)
    requires Inv(h, c) && Enabled(h, c, ActInitialize(who, proof))
    ensures Inv(h, Apply(h, c, ActInitialize(who, proof)))
  {
    var n := c.nodes[who];
    assert NodeOk(h, c.sigs, n);
    InitializeKeepsData(h, n, proof);
    var n' := InitializeOp(n, proof).0;
    forall m | m in c.sigs && m.author == n'.author ensures Covers(n'.data, m) {
      InitialisedCovers(h, n, n', m);
    }
    assert NodeOk(h, c.sigs, n');
    MoveNode(h, c, n');
  }

  lemma StepKeepsInv(h: History, c: Cluster, a: Action)
    requires Inv(h, c) && Enabled(h, c, a)
    ensures Inv(h, Apply(h, c, a))
    ensures c.sigs <= Apply(h, c, a).sigs && Apply(h, c, a).nodes.Keys == c.nodes.Keys
  {
    match a {
      case ActVote(who, p, tc) => VoteKeepsInv(h, c, who, p, tc);
      case ActTimeout(who, t, tc) => TimeoutKeepsInv(h, c, who, t, tc);
      case ActOrderVote(who, block, qc) => OrderVoteKeepsInv(h, c, who, block, qc);
      case ActPropose(who, block) =>
        var (n', r) := ProposeOp(c.nodes[who], c.sigs, who, block);
        assert n' == c.nodes[who] && c.nodes[who := n'] == c.nodes;
        if r.Ok? { AddHonest(h, c, n', r.value); }
      case ActInitialize(who, proof) => InitializeKeepsInv(h, c, who, proof);
      case ActRestart(who) =>
        assert c.nodes[who := Restart(c.nodes[who])].Keys == c.nodes.Keys;
      case ActFaulty(msg) => AddFaulty(h, c, msg);
    }
  }

  lemma {:induction false} RunKeepsInv(h: History, cs: seq<Cluster>, acts: seq<Action>, i: nat)
    requires Run(h, cs, acts) && i < |cs|
    ensures Inv(h, cs[i])
    ensures forall j :: 0 <= j <= i ==> cs[j].sigs <= cs[i].sigs
  {
    if i == 0 {
      assert SigsSound(h, cs[0].nodes.Keys, {});
    } else {
      RunKeepsInv(h, cs, acts, i - 1);
      StepKeepsInv(h, cs[i - 1], acts[i - 1]);
    }
  }

  // ---------------------------------------------------------------------------------------------
  // Safety of any set of signatures that satisfies the invariant
  // ---------------------------------------------------------------------------------------------

  /** Behind every certificate above round zero stands an honest vote; shared by any two quorums. */
  lemma HonestInBoth(h: History, honest: set<Author>, e: nat, s: set<Author>, t: set<Author>)
    requires Tolerable(h, honest) && h(e).IsQuorum(s) && h(e).IsQuorum(t)
    ensures exists a :: a in s && a in t && a in honest
  {
    QuorumsShareHonest(h(e), s, t, h(e).Authors() - honest);
  }

  lemma CertifiedIsSound(h: History, honest: set<Author>, sigs: set<Signed>, b: Block)
    requires Tolerable(h, honest) && SigsSound(h, honest, sigs)
    requires Certified(h, sigs, b) && b.Round() > 0
    ensures b.Child?
    ensures exists a, commit :: a in honest && SVote(a, b, commit) in sigs && MsgSound(h, sigs, SVote(a, b, commit))
  {
    var qc: QuorumCert :| qc.certified == b && QcValid(h(b.epoch), sigs, qc);
    HonestInBoth(h, honest, b.epoch, qc.signers, qc.signers);
    var a :| a in qc.signers && a in honest;
    assert SVote(a, b, qc.commit) in sigs;
  }

  /** The parent of a certified block is certified. */
  lemma ParentCertified(h: History, honest: set<Author>, sigs: set<Signed>, b: Block)
    requires Tolerable(h, honest) && SigsSound(h, honest, sigs)
    requires Certified(h, sigs, b) && b.Round() > 0
    ensures b.Child? && b.Parent().epoch == b.epoch && b.Parent().Round() < b.Round()
    ensures Certified(h, sigs, b.Parent())
    ensures b.Round() == b.Parent().Round() + 1 || exists tc :: JustifiedBy(h, sigs, b, tc)
  {
    CertifiedIsSound(h, honest, sigs, b);
    var a, commit :| a in honest && SVote(a, b, commit) in sigs && MsgSound(h, sigs, SVote(a, b, commit));
    assert b.Qc().certified == b.Parent();
  }

  /** At most one block per epoch and round is ever certified. */
  lemma CertifiedUnique(h: History, honest: set<Author>, sigs: set<Signed>, b: Block, b': Block)
    requires Tolerable(h, honest) && SigsSound(h, honest, sigs)
    requires Certified(h, sigs, b) && Certified(h, sigs, b')
    requires b.epoch == b'.epoch && b.Round() == b'.Round() > 0
    ensures b == b'
  {
    var qc: QuorumCert :| qc.certified == b && QcValid(h(b.epoch), sigs, qc);
    var qc': QuorumCert :| qc'.certified == b' && QcValid(h(b'.epoch), sigs, qc');
    HonestInBoth(h, honest, b.epoch, qc.signers, qc'.signers);
    var a :| a in qc.signers && a in qc'.signers && a in honest;
    assert PairSound(SVote(a, b, qc.commit), SVote(a, b', qc'.commit));
  }

  /** No later certified block builds on anything older than `b`. */
  ghost predicate Locked(h: History, sigs: set<Signed>, b: Block) {
    forall c :: Certified(h, sigs, c) && c.epoch == b.epoch && c.Round() > b.Round() ==>
      c.Parent().Round() >= b.Round()
  }

  /** A timeout certificate at or above an ordered block carries a certificate at least that high. */
  lemma OrderedForcesTc(h: History, honest: set<Author>, sigs: set<Signed>, b: Block, signers: set<Author>,
                        tc: TimeoutCert)
    requires Tolerable(h, honest) && SigsSound(h, honest, sigs)
    requires OrderedBy(h, sigs, b, signers)
    requires TcValid(h(b.epoch), sigs, tc) && tc.timeout.epoch == b.epoch && tc.Round() >= b.Round()
    ensures tc.HighestHqcRound() >= b.Round()
  {
    HonestInBoth(h, honest, b.epoch, signers, tc.signed.Keys);
    var a :| a in signers && a in tc.signed.Keys && a in honest;
    assert PairSound(SOrder(a, b), STimeout(a, b.epoch, tc.timeout.round, tc.signed[a]));
  }

  /** A timeout certificate at or above a certified block carries a certificate at least as high as its parent. */
  lemma CertifiedForcesTc(h: History, honest: set<Author>, sigs: set<Signed>, qc: QuorumCert, tc: TimeoutCert)
    requires Tolerable(h, honest) && SigsSound(h, honest, sigs)
    requires qc.certified.Round() > 0 && QcValid(h(qc.certified.epoch), sigs, qc)
    requires TcValid(h(qc.certified.epoch), sigs, tc)
    requires tc.timeout.epoch == qc.certified.epoch && tc.Round() >= qc.certified.Round()
    ensures tc.HighestHqcRound() >= qc.certified.Parent().Round()
  {
    var b := qc.certified;
    HonestInBoth(h, honest, b.epoch, qc.signers, tc.signed.Keys);
    var a :| a in qc.signers && a in tc.signed.Keys && a in honest;
    assert PairSound(SVote(a, b, qc.commit), STimeout(a, b.epoch, tc.timeout.round, tc.signed[a]));
  }

  /** Order votes lock: whoever signed one before timing out carries `b`'s certificate in later timeouts. */
  lemma OrderedLocks(h: History, honest: set<Author>, sigs: set<Signed>, b: Block, signers: set<Author>)
    requires Tolerable(h, honest) && SigsSound(h, honest, sigs)
    requires OrderedBy(h, sigs, b, signers)
    ensures b.Round() > 0 && Certified(h, sigs, b) && Locked(h, sigs, b)
  {
    HonestInBoth(h, honest, b.epoch, signers, signers);
    var w :| w in signers && w in honest;
    assert MsgSound(h, sigs, SOrder(w, b));
    forall c | Certified(h, sigs, c) && c.epoch == b.epoch && c.Round() > b.Round()
      ensures c.Parent().Round() >= b.Round()
    {
      ParentCertified(h, honest, sigs, c);
      if c.Round() != c.Parent().Round() + 1 {
        var tc :| JustifiedBy(h, sigs, c, tc);
        OrderedForcesTc(h, honest, sigs, b, signers, tc);
      }
    }
  }

  /** The two-chain rule locks: the voters of the second block are locked on the first. */
  lemma TwoChainLocks(h: History, honest: set<Author>, sigs: set<Signed>, b: Block, qc: QuorumCert)
    requires Tolerable(h, honest) && SigsSound(h, honest, sigs)
    requires qc.certified.Child? && qc.commit == Some(b) && QcValid(h(qc.certified.epoch), sigs, qc)
    ensures qc.certified.Parent() == b && qc.certified.Round() == b.Round() + 1 && qc.certified.epoch == b.epoch
    ensures Certified(h, sigs, b) && Locked(h, sigs, b)
  {
    var top := qc.certified;
    assert Certified(h, sigs, top);
    HonestInBoth(h, honest, top.epoch, qc.signers, qc.signers);
    var w :| w in qc.signers && w in honest;
    assert MsgSound(h, sigs, SVote(w, top, qc.commit));
    ParentCertified(h, honest, sigs, top);
    forall c | Certified(h, sigs, c) && c.epoch == b.epoch && c.Round() > b.Round()
      ensures c.Parent().Round() >= b.Round()
    {
      if c.Round() == top.Round() {
        CertifiedUnique(h, honest, sigs, c, top);
      } else {
        ParentCertified(h, honest, sigs, c);
        if c.Round() != c.Parent().Round() + 1 {
          var tc :| JustifiedBy(h, sigs, c, tc);
          CertifiedForcesTc(h, honest, sigs, qc, tc);
        }
      }
    }
  }

  /** Everything certified above a locked block extends it. */
  lemma {:induction false} LockedIsExtended(h: History, honest: set<Author>, sigs: set<Signed>, b: Block, c: Block)
    requires Tolerable(h, honest) && SigsSound(h, honest, sigs)
    requires Certified(h, sigs, b) && Locked(h, sigs, b) && b.Round() > 0
    requires Certified(h, sigs, c) && c.epoch == b.epoch && c.Round() >= b.Round()
    ensures Extends(c, b)
    decreases c.Round()
  {
    if c.Round() == b.Round() {
      CertifiedUnique(h, honest, sigs, c, b);
    } else {
      ParentCertified(h, honest, sigs, c);
      LockedIsExtended(h, honest, sigs, b, c.Parent());
    }
  }

  lemma CommittedLocks(h: History, honest: set<Author>, sigs: set<Signed>, b: Block)
    requires Tolerable(h, honest) && SigsSound(h, honest, sigs)
    requires Committed(h, sigs, b)
    ensures Certified(h, sigs, b) && Locked(h, sigs, b)
  {
    if CommittedByQc(h, sigs, b) {
      var qc: QuorumCert :| qc.certified.Child? && qc.commit == Some(b) && QcValid(h(qc.certified.epoch), sigs, qc);
      TwoChainLocks(h, honest, sigs, b, qc);
    } else {
      var signers :| OrderedBy(h, sigs, b, signers);
      OrderedLocks(h, honest, sigs, b, signers);
    }
  }

  lemma CommitMonotone(h: History, sigs: set<Signed>, more: set<Signed>, b: Block)
    requires sigs <= more && Committed(h, sigs, b)
    ensures Committed(h, more, b)
  {
    if CommittedByQc(h, sigs, b) {
      var qc: QuorumCert :| qc.certified.Child? && qc.commit == Some(b) && QcValid(h(qc.certified.epoch), sigs, qc);
      QcMonotone(h(qc.certified.epoch), sigs, more, qc);
    } else {
      var signers :| OrderedBy(h, sigs, b, signers);
      assert OrderedBy(h, more, b, signers);
    }
  }

  // ---------------------------------------------------------------------------------------------
  // Main results
  // ---------------------------------------------------------------------------------------------

  /** Two committed blocks of one epoch are on one chain, whatever set of sound signatures commits them. */
  lemma CommittedAgree(h: History, honest: set<Author>, sigs: set<Signed>, b: Block, b': Block)
    requires Tolerable(h, honest) && SigsSound(h, honest, sigs)
    requires Committed(h, sigs, b) && Committed(h, sigs, b')
    requires b.epoch == b'.epoch && b.Round() > 0 && b'.Round() > 0
    ensures Extends(b, b') || Extends(b', b)
  {
    CommittedLocks(h, honest, sigs, b);
    CommittedLocks(h, honest, sigs, b');
    if b.Round() <= b'.Round() {
      LockedIsExtended(h, honest, sigs, b, b');
    } else {
      LockedIsExtended(h, honest, sigs, b', b);
    }
  }

  /** Blocks of one epoch committed anywhere in a run, at any two points of it, are on one chain. */
  lemma CommitSafety(h: History, cs: seq<Cluster>, acts: seq<Action>, i: nat, j: nat, b: Block, b': Block)
    requires Run(h, cs, acts) && i < |cs| && j < |cs|
    requires Committed(h, cs[i].sigs, b) && Committed(h, cs[j].sigs, b')
    requires b.epoch == b'.epoch && b.Round() > 0 && b'.Round() > 0
    ensures Extends(b, b') || Extends(b', b)
  {
    var last := if i <= j then j else i;
    RunKeepsInv(h, cs, acts, last);
    CommitMonotone(h, cs[i].sigs, cs[last].sigs, b);
    CommitMonotone(h, cs[j].sigs, cs[last].sigs, b');
    CommittedAgree(h, cs[last].nodes.Keys, cs[last].sigs, b, b');
  }

  /** An honest validator signs at most one vote per epoch and round, across restarts and initialisations. */
  lemma OneVotePerRound(h: History, cs: seq<Cluster>, acts: seq<Action>, i: nat, m: Signed, m': Signed)
    requires Run(h, cs, acts) && i < |cs|
    requires m in cs[i].sigs && m' in cs[i].sigs && m.SVote? && m'.SVote?
    requires m.author == m'.author && m.author in cs[i].nodes
    requires m.block.epoch == m'.block.epoch && m.block.Round() == m'.block.Round()
    ensures m == m'
  {
    RunKeepsInv(h, cs, acts, i);
    assert PairSound(m, m');
  }
}
