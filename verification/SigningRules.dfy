/**
 When one validator signs, and what it then persists: exact conditions on its state and the request, for each of the
 signing calls and for initialisation.
 */
module SigningRules {
  import opened Wrappers
  import opened Quorum
  import opened EpochChange
  import opened SafetyRules

  /** The validator can check signatures, and what it was given passes or need not be checked. */
  predicate Passes(n: Node, valid: Verifier -> bool) {
    n.epochState.Some? && (n.skipSigVerify || valid(n.epochState.value.verifier))
  }

  predicate TcPasses(n: Node, sigs: set<Signed>, tc: Option<TimeoutCert>) {
    tc.Some? ==> Passes(n, v => TcValid(v, sigs, tc.value))
  }

  /** The proposal is of the validator's epoch, well formed, and its certificate and the timeout certificate pass. */
  predicate Presentable(n: Node, sigs: set<Signed>, p: VoteProposal, tc: Option<TimeoutCert>) {
    && n.signer.Some?
    && p.block.Child? && p.block.epoch == n.data.epoch
    && p.block.qc.certified.epoch == p.block.epoch && p.block.qc.certified.Round() < p.block.childRound
    && (n.skipSigVerify || p.signatureOk) && p.contentOk && p.extensionOk
    && Passes(n, v => QcValid(v, sigs, p.block.qc))
    && TcPasses(n, sigs, tc)
  }

  /** It voted in that round already. */
  predicate VotedIn(n: Node, round: nat) {
    n.data.lastVote.Some? && n.data.lastVote.value.SVote? && n.data.lastVote.value.block.Round() == round
  }

  /** The round follows the parent's, or that of a timeout certificate that knows nothing newer than the parent. */
  predicate Justified(round: nat, parent: nat, tc: Option<TimeoutCert>) {
    || round == parent + 1
    || (tc.Some? && tc.value.timeout.round < U64_MAX && round == tc.value.timeout.round + 1
        && parent >= tc.value.timeout.qc.certified.Round())
  }

  /** A vote is given exactly for a presentable proposal that was voted on before, or is newer and justified. */
  lemma VotesExactly(n: Node, sigs: set<Signed>, p: VoteProposal, tc: Option<TimeoutCert>)
    ensures VoteOp(n, sigs, p, tc).1.Ok? <==>
            && Presentable(n, sigs, p, tc)
            && (|| VotedIn(n, p.block.childRound)
                || (&& n.data.lastVotedRound < p.block.childRound && p.block.qc.certified.Round() < U64_MAX
                    && Justified(p.block.childRound, p.block.qc.certified.Round(), tc)))
  {
  }

  /** A vote again is the same vote, and changes nothing; so does a refusal. */
  lemma RevotesAlike(n: Node, sigs: set<Signed>, p: VoteProposal, tc: Option<TimeoutCert>)
    ensures VoteOp(n, sigs, p, tc).1.Err? ==> VoteOp(n, sigs, p, tc).0 == n
    ensures VoteOp(n, sigs, p, tc).1.Ok? && VotedIn(n, p.block.Round()) ==>
              VoteOp(n, sigs, p, tc) == (n, Ok(n.data.lastVote.value))
  {
  }

  /**
   A new vote is for the block, with its parent as commit exactly if their rounds are consecutive; it is persisted with
   its round, and the rounds of the parent and the parent's parent if these are new maxima.
   */
  lemma NewVoteIs(n: Node, sigs: set<Signed>, p: VoteProposal, tc: Option<TimeoutCert>)
    requires VoteOp(n, sigs, p, tc).1.Ok? && !VotedIn(n, p.block.Round())
    ensures p.block.Child?
    ensures var b := p.block;
            var parent := b.qc.certified;
            var vote := SVote(n.author, b, if b.childRound == parent.Round() + 1 then Some(parent) else None);
            && VoteOp(n, sigs, p, tc).1 == Ok(vote)
            && VoteOp(n, sigs, p, tc).0 == n.(data := SafetyData(
                 n.data.epoch,
                 b.childRound,
                 Max(n.data.preferredRound, parent.Parent().Round()),
                 Max(n.data.oneChainRound, parent.Round()),
                 Some(vote),
                 n.data.highestTimeoutRound))
  {
  }

  /** The timeout itself is of the validator's epoch and passes. */
  predicate TimeoutPasses(n: Node, sigs: set<Signed>, t: Timeout) {
    && n.signer.Some? && t.epoch == n.data.epoch
    && (n.skipSigVerify
        || (n.epochState.Some? && t.qc.certified.Round() < t.round && QcValid(n.epochState.value.verifier, sigs, t.qc)))
  }

  /**
   A timeout is signed exactly if it passes, follows its own certificate or the timeout certificate by one round, is not
   behind the newest certificate seen, nor behind the last vote; the round of the last vote itself may time out.
   */
  lemma TimesOutExactly(n: Node, sigs: set<Signed>, t: Timeout, tc: Option<TimeoutCert>)
    ensures var after := if tc.Some? then tc.value.timeout.round else 0;
            TimeoutOp(n, sigs, t, tc).1.Ok? <==>
            && TimeoutPasses(n, sigs, t) && TcPasses(n, sigs, tc)
            && t.qc.certified.Round() < U64_MAX
            && (t.round == t.qc.certified.Round() + 1 || (after < U64_MAX && t.round == after + 1))
            && n.data.oneChainRound <= t.qc.certified.Round()
            && n.data.lastVotedRound <= t.round
  {
  }

  /** It says the round and the certificate's round, and both rounds it bounds are persisted. */
  lemma TimeoutIs(n: Node, sigs: set<Signed>, t: Timeout, tc: Option<TimeoutCert>)
    ensures TimeoutOp(n, sigs, t, tc).1.Err? ==> TimeoutOp(n, sigs, t, tc).0 == n
    ensures TimeoutOp(n, sigs, t, tc).1.Ok? ==>
              TimeoutOp(n, sigs, t, tc)
              == (n.(data := SafetyData(n.data.epoch, t.round, n.data.preferredRound, n.data.oneChainRound,
                                        n.data.lastVote, Max(n.data.highestTimeoutRound, t.round))),
                  Ok(STimeout(n.author, t.epoch, t.round, t.qc.certified.Round())))
  {
  }

  /** A block is ordered exactly if the certificate is for it and passes, and no round from its own on has timed out. */
  lemma OrdersExactly(n: Node, sigs: set<Signed>, b: Block, qc: QuorumCert)
    ensures OrderVoteOp(n, sigs, b, qc).1.Ok? <==>
            && n.signer.Some? && b.epoch == n.data.epoch && qc.certified == b
            && Passes(n, v => QcValid(v, sigs, qc))
            && n.data.highestTimeoutRound < b.Round()
    ensures OrderVoteOp(n, sigs, b, qc).1.Err? ==> OrderVoteOp(n, sigs, b, qc).0 == n
    ensures OrderVoteOp(n, sigs, b, qc).1.Ok? ==>
              OrderVoteOp(n, sigs, b, qc)
              == (n.(data := SafetyData(n.data.epoch, n.data.lastVotedRound,
                                        Max(n.data.preferredRound, b.Parent().Round()),
                                        Max(n.data.oneChainRound, b.Round()),
                                        n.data.lastVote, n.data.highestTimeoutRound)),
                  Ok(SOrder(n.author, b)))
  {
  }

  /**
   A proposal is signed exactly if it is the validator's own, of its epoch, above its last vote, on a certificate that
   passes and is not behind the preferred round. Nothing is persisted.
   */
  lemma ProposesExactly(n: Node, sigs: set<Signed>, proposer: Author, b: Block)
    ensures ProposeOp(n, sigs, proposer, b).1.Ok? <==>
            && n.signer.Some? && b.Child? && proposer == n.author && b.epoch == n.data.epoch
            && n.data.lastVotedRound < b.childRound
            && Passes(n, v => QcValid(v, sigs, b.qc))
            && n.data.preferredRound <= b.qc.certified.Round()
    ensures ProposeOp(n, sigs, proposer, b).0 == n
    ensures ProposeOp(n, sigs, proposer, b).1.Ok? ==> ProposeOp(n, sigs, proposer, b).1 == Ok(SProposal(n.author, b))
  {
  }

  /** An executed block is signed exactly if the ordered ledger info is for it, carries no other result, and passes. */
  lemma SignsExactly(n: Node, sigs: set<Signed>, commits: set<CommitVote>, cert: OrderedCert, b: Block, r: Executed)
    ensures CommitVoteOp(n, sigs, commits, cert, b, r).Ok? <==>
            && n.signer.Some?
            && (match cert
                case ByVotes(qc) => qc.commit == Some(b)
                case ByOrderVotes(ordered, _) => ordered == b
                case ByCommitVotes(executed, result, _) => executed == b && result == r)
            && (n.skipSigVerify
                || (n.epochState.Some? && OrderedValid(n.epochState.value.verifier, sigs, commits, cert)))
    ensures CommitVoteOp(n, sigs, commits, cert, b, r).Ok? ==>
              CommitVoteOp(n, sigs, commits, cert, b, r) == Ok(CommitVote(n.author, b, r))
  {
  }

  /**
   Taking over a verified ledger info: the waypoint moves only forward; an older epoch is refused; a newer one begins
   with fresh data and an equal one keeps them; and a signer is there afterwards exactly if the new set names a key that
   is held.
   */
  lemma InstallsExactly(n: Node, li: LedgerInfo)
    requires li.next.Some?
    ensures var (n', r) := Install(n, li);
            var next := li.next.value;
            && n'.waypoint == (if n.waypoint.version < li.version then Waypoint(li.version, li) else n.waypoint)
            && n'.author == n.author && n'.keys == n.keys && n'.skipSigVerify == n.skipSigVerify
            && (if n.data.epoch > next.epoch then
                  && r == Err(WaypointOutOfDate(n.waypoint.version, li.version, n.data.epoch, next.epoch))
                  && n' == n.(waypoint := n'.waypoint)
                else
                  && n'.epochState == Some(next)
                  && n'.data == (if n.data.epoch == next.epoch then n.data
                                 else SafetyData(next.epoch, 0, 0, 0, None, 0))
                  && (match next.verifier.KeyOf(n.author)
                      case None => r == Err(ValidatorNotInSet) && n'.signer == None
                      case Some(k) =>
                        if k in n.keys || n.signer == Some(k) then r == Ok(()) && n'.signer == Some(k)
                        else r == Err(ValidatorKeyNotFound) && n'.signer == None))
  {
  }

  // ---------------------------------------------------------------------------------------------
  // Certificates that are gathered are valid
  // ---------------------------------------------------------------------------------------------

  /** No validator is listed twice. */
  ghost predicate Distinct(v: Verifier) {
    forall i, j :: 0 <= i < j < |v.infos| ==> v.infos[i].author != v.infos[j].author
  }

  lemma {:induction false} PowerOfOne(infos: seq<ValidatorInfo>, i: nat)
    requires i < |infos| && forall j, k :: 0 <= j < k < |infos| ==> infos[j].author != infos[k].author
    ensures PowerIn(infos, {infos[i].author}) == infos[i].power
  {
    if i == 0 {
      NoPower(infos[1..], {infos[0].author});
    } else {
      assert infos[1..][i - 1] == infos[i];
      PowerOfOne(infos[1..], i - 1);
    }
  }

  lemma {:induction false} NoPower(infos: seq<ValidatorInfo>, who: set<Author>)
    requires forall i :: 0 <= i < |infos| ==> infos[i].author !in who
    ensures PowerIn(infos, who) == 0
  {
    if infos != [] { NoPower(infos[1..], who); }
  }

  /** Voting power is what the set gives each validator, added up; strangers have none. */
  lemma PowerAddsUp(v: Verifier, i: nat, who: set<Author>)
    requires Distinct(v) && i < |v.infos| && v.infos[i].author !in who
    ensures v.PowerOf(who + {v.infos[i].author}) == v.PowerOf(who) + v.infos[i].power
    ensures v.PowerOf({}) == 0
  {
    var a := v.infos[i].author;
    PowerModular(v.infos, who, {a});
    PowerOfOne(v.infos, i);
    NoPower(v.infos, {});
    assert who * {a} == {};
  }

  /** A validator's key is the one that the set lists for it. */
  lemma {:induction false} KeyIsListed(infos: seq<ValidatorInfo>, i: nat)
    requires i < |infos| && forall j, k :: 0 <= j < k < |infos| ==> infos[j].author != infos[k].author
    ensures KeyIn(infos, infos[i].author) == Some(infos[i].key)
  {
    if i > 0 {
      assert infos[1..][i - 1] == infos[i];
      KeyIsListed(infos[1..], i - 1);
    }
  }

  lemma {:induction false} NoKey(infos: seq<ValidatorInfo>, author: Author)
    requires forall i :: 0 <= i < |infos| ==> infos[i].author != author
    ensures KeyIn(infos, author) == None
  {
    if infos != [] { NoKey(infos[1..], author); }
  }

  /** A quorum is more than two thirds of the voting power, of validators of the set only. */
  lemma QuorumIsTwoThirds(v: Verifier, signers: set<Author>)
    requires v.infos != []
    ensures v.IsQuorum(signers) <==> signers <= v.Authors() && 3 * v.PowerOf(signers) > 2 * v.PowerOf(v.Authors())
  {
  }

  /**
   A certificate is valid exactly if it is the unsigned one of a root, or a quorum signed its block and commit, and the
   block has a parent of its epoch and a lower round.
   */
  lemma CertifiesExactly(v: Verifier, sigs: set<Signed>, qc: QuorumCert)
    ensures QcValid(v, sigs, qc) <==>
            || (qc.certified.Root? && qc == QuorumCert(qc.certified, Some(qc.certified), {}))
            || (&& qc.certified.Child? && qc.certified.childRound > 0
                && qc.certified.qc.certified.epoch == qc.certified.epoch
                && qc.certified.qc.certified.Round() < qc.certified.childRound
                && v.IsQuorum(qc.signers)
                && forall a :: a in qc.signers ==> SVote(a, qc.certified, qc.commit) in sigs)
  {
  }

  /**
   A timeout certificate is valid exactly if a quorum signed its round, each with a certificate round of its own, and
   the certificate it carries is valid, older than its round, and the newest of those.
   */
  lemma TimeoutCertifiesExactly(v: Verifier, sigs: set<Signed>, tc: TimeoutCert)
    ensures TcValid(v, sigs, tc) <==>
            && QcValid(v, sigs, tc.timeout.qc) && tc.timeout.qc.certified.Round() < tc.timeout.round
            && v.IsQuorum(tc.signed.Keys)
            && (forall a :: a in tc.signed ==>
                  STimeout(a, tc.timeout.epoch, tc.timeout.round, tc.signed[a]) in sigs)
            && (exists a :: a in tc.signed && tc.signed[a] == tc.timeout.qc.certified.Round())
            && (forall a :: a in tc.signed ==> tc.signed[a] <= tc.timeout.qc.certified.Round())
  {
  }

  /** Votes of a quorum for one block and commit make a certificate. */
  lemma GatheredVotes(v: Verifier, sigs: set<Signed>, b: Block, commit: Option<Block>, signers: set<Author>)
    requires b.Child? && b.qc.certified.epoch == b.epoch && b.qc.certified.Round() < b.childRound
    requires v.IsQuorum(signers) && forall a :: a in signers ==> SVote(a, b, commit) in sigs
    ensures QcValid(v, sigs, QuorumCert(b, commit, signers))
  {
  }

  /** Timeouts of a quorum for one round, with the newest of their certificates, make a timeout certificate. */
  lemma GatheredTimeouts(v: Verifier, sigs: set<Signed>, t: Timeout, signed: map<Author, nat>, newest: Author)
    requires t.qc.certified.Round() < t.round && QcValid(v, sigs, t.qc)
    requires v.IsQuorum(signed.Keys) && newest in signed && signed[newest] == t.qc.certified.Round()
    requires forall a :: a in signed ==>
               STimeout(a, t.epoch, t.round, signed[a]) in sigs && signed[a] <= t.qc.certified.Round()
    ensures TcValid(v, sigs, TimeoutCert(t, signed))
  {
  }
}
