/**
 One validator's voting rules (consensus/safety-rules/src/safety_rules.rs and safety_rules_2chain.rs).

 Signatures are ideal: a signature by an author on a message verifies exactly when the author signed
 that message, so the methods take the set of all signatures made so far (`sigs`) and a certificate is
 checked against it. Block ids are content hashes, so a block is identified with its content and a
 quorum certificate names the block it certifies.
 */
module SafetyRules {
  import opened Wrappers
  import opened Quorum
  import opened EpochChange

  /** The root of an epoch, which needs no signatures, or a block that carries its parent's certificate. */
  datatype Block =
    | Root(epoch: nat, id: nat)
    | Child(epoch: nat, childRound: nat, id: nat, qc: QuorumCert)
  {
    function Round(): nat {
      if Root? then 0 else childRound
    }

    /** The certificate a block carries; a root comes with the unsigned certificate of itself. */
    function Qc(): QuorumCert {
      if Root? then QuorumCert(this, Some(this), {}) else qc
    }

    function Parent(): Block {
      Qc().certified
    }
  }

  /** `commit` is the commit info of the signed ledger info; None is the empty block info. */
  datatype QuorumCert = QuorumCert(certified: Block, commit: Option<Block>, signers: set<Author>)

  datatype Timeout = Timeout(epoch: nat, round: nat, qc: QuorumCert) {
    function HqcRound(): nat {
      qc.certified.Round()
    }
  }

  /** `signed` maps every signer to the certificate round it signed. */
  datatype TimeoutCert = TimeoutCert(timeout: Timeout, signed: map<Author, nat>) {
    function Round(): nat {
      timeout.round
    }

    function HighestHqcRound(): nat {
      timeout.HqcRound()
    }
  }

  datatype Signed =
    | SVote(author: Author, block: Block, commit: Option<Block>)
    | STimeout(author: Author, epoch: nat, round: nat, hqcRound: nat)
    | SOrder(author: Author, block: Block)
    | SProposal(author: Author, block: Block)

  datatype Error =
    | IncorrectEpoch(provided: nat, expected: nat)
    | IncorrectRound(round: nat)
    | IncorrectLastVotedRound(round: nat, lastVoted: nat)
    | IncorrectPreferredRound(oneChain: nat, preferred: nat)
    | InvalidEpochChangeProof(reason: ProofError)
    | InvalidLedgerInfo
    | InvalidProposal
    | InvalidAccumulatorExtension
    | InvalidQuorumCertificate
    | InvalidOneChainQuorumCertificate
    | InvalidTimeout
    | InvalidTimeoutCertificate
    | NotInitialized
    | NotSafeToVote(round: nat, qcRound: nat, tcRound: nat, hqcRound: nat)
    | NotSafeToTimeout(round: nat, qcRound: nat, tcRound: nat, oneChain: nat)
    | NotSafeForOrderVote(round: nat, highestTimeout: nat)
    | WaypointOutOfDate(prev: nat, curr: nat, currentEpoch: nat, providedEpoch: nat)
    | InvalidOrderedLedgerInfo
    | InconsistentExecutionResult
    | ValidatorNotInSet
    | ValidatorKeyNotFound
    | InternalError

  datatype SafetyData = SafetyData(
    epoch: nat,
    lastVotedRound: nat,
    preferredRound: nat,
    oneChainRound: nat,
    lastVote: Option<Signed>,
    highestTimeoutRound: nat)

  /**
   A proposal to vote on. The flags are the outcomes of the checks whose inputs are not modelled: the proposer's
   signature, the payload, author and timestamp part of well-formedness, and the accumulator extension.
   */
  datatype VoteProposal = VoteProposal(block: Block, signatureOk: bool, contentOk: bool, extensionOk: bool)

  /** Everything one validator's rules read and write; the persisted part survives a restart. */
  datatype Node = Node(
    author: Author,
    data: SafetyData,
    waypoint: Waypoint,
    keys: set<PublicKey>,
    signer: Option<PublicKey>,
    epochState: Option<EpochState>,
    skipSigVerify: bool)

  // ---------------------------------------------------------------------------------------------
  // Certificates
  // ---------------------------------------------------------------------------------------------

  predicate VoteSigned(sigs: set<Signed>, qc: QuorumCert) {
    forall a :: a in qc.signers ==> SVote(a, qc.certified, qc.commit) in sigs
  }

  /** A root is agreed upon without signatures; anything else needs a quorum on the same vote. */
  predicate QcValid(v: Verifier, sigs: set<Signed>, qc: QuorumCert) {
    if qc.certified.Round() == 0 then
      qc.certified.Root? && qc.commit == Some(qc.certified) && qc.signers == {}
    else
      && v.IsQuorum(qc.signers)
      && VoteSigned(sigs, qc)
      && qc.certified.Child?
      && qc.certified.Parent().epoch == qc.certified.epoch
      && qc.certified.Parent().Round() < qc.certified.Round()
  }

  /** A ledger info that orders a block: inside a certificate, signed by order votes, or by commit votes. */
  datatype OrderedCert =
    | ByVotes(qc: QuorumCert)
    | ByOrderVotes(block: Block, orderSigners: set<Author>)
    | ByCommitVotes(executed: Block, result: Executed, commitSigners: set<Author>)
  {
    function Ordered(): Option<Block> {
      match this
      case ByVotes(qc) => qc.commit
      case ByOrderVotes(b, _) => Some(b)
      case ByCommitVotes(b, _, _) => Some(b)
    }

    /** Not yet executed; or, after a fast forward, executed already with just this result. */
    predicate Fits(b: Block, r: Executed) {
      if ByCommitVotes? then executed == b && result == r else Ordered().Some?
    }
  }

  /** What executing a block gives: the version, hashed fields, and the next epoch if the block ends this one. */
  datatype Executed = Executed(version: nat, digest: nat, next: Option<EpochState>)

  /** A signature on the ledger info of an executed block. */
  datatype CommitVote = CommitVote(author: Author, block: Block, result: Executed)

  predicate OrderedValid(v: Verifier, sigs: set<Signed>, commits: set<CommitVote>, cert: OrderedCert) {
    match cert
    case ByVotes(qc) => v.IsQuorum(qc.signers) && VoteSigned(sigs, qc)
    case ByOrderVotes(b, signers) => v.IsQuorum(signers) && forall a :: a in signers ==> SOrder(a, b) in sigs
    case ByCommitVotes(b, r, signers) =>
      v.IsQuorum(signers) && forall a :: a in signers ==> CommitVote(a, b, r) in commits
  }

  predicate TimeoutValid(v: Verifier, sigs: set<Signed>, t: Timeout) {
    t.HqcRound() < t.round && QcValid(v, sigs, t.qc)
  }

  /** A quorum signed this round, and the certificate carries the highest round among the signed ones. */
  predicate TcValid(v: Verifier, sigs: set<Signed>, tc: TimeoutCert) {
    && TimeoutValid(v, sigs, tc.timeout)
    && v.IsQuorum(tc.signed.Keys)
    && (forall a :: a in tc.signed ==>
          STimeout(a, tc.timeout.epoch, tc.timeout.round, tc.signed[a]) in sigs)
    && tc.HighestHqcRound() in tc.signed.Values
    && (forall a :: a in tc.signed ==> tc.signed[a] <= tc.HighestHqcRound())
  }

  predicate WellFormed(p: VoteProposal) {
    && p.block.Child?
    && p.block.Parent().Round() < p.block.Round()
    && p.block.Parent().epoch == p.block.epoch
    && p.contentOk
  }

  // ---------------------------------------------------------------------------------------------
  // Rules on the safety data
  // ---------------------------------------------------------------------------------------------

  function NextRound(round: nat): Result<nat, Error> {
    if round >= U64_MAX then Err(IncorrectRound(round)) else Ok(round + 1)
  }

  function ObserveQc(qc: QuorumCert, d: SafetyData): SafetyData {
    d.(oneChainRound := Max(d.oneChainRound, qc.certified.Round()),
       preferredRound := Max(d.preferredRound, qc.certified.Parent().Round()))
  }

  function TcRound(tc: Option<TimeoutCert>): nat {
    if tc.Some? then tc.value.Round() else 0
  }

  function TcHqcRound(tc: Option<TimeoutCert>): nat {
    if tc.Some? then tc.value.HighestHqcRound() else 0
  }

  function SafeToVote(block: Block, tc: Option<TimeoutCert>): Result<(), Error> {
    var round := block.Round();
    var qcRound := block.Parent().Round();
    match NextRound(qcRound)
    case Err(e) => Err(e)
    case Ok(afterQc) =>
      if round == afterQc then Ok(())
      else
        match NextRound(TcRound(tc))
        case Err(e) => Err(e)
        case Ok(afterTc) =>
          if round == afterTc && qcRound >= TcHqcRound(tc) then Ok(())
          else Err(NotSafeToVote(round, qcRound, TcRound(tc), TcHqcRound(tc)))
  }

  function SafeToTimeout(t: Timeout, tc: Option<TimeoutCert>, d: SafetyData): Result<(), Error> {
    var qcRound := t.HqcRound();
    match NextRound(qcRound)
    case Err(e) => Err(e)
    case Ok(afterQc) =>
      if t.round == afterQc then
        if qcRound >= d.oneChainRound then Ok(())
        else Err(NotSafeToTimeout(t.round, qcRound, TcRound(tc), d.oneChainRound))
      else
        match NextRound(TcRound(tc))
        case Err(e) => Err(e)
        case Ok(afterTc) =>
          if t.round == afterTc && qcRound >= d.oneChainRound then Ok(())
          else Err(NotSafeToTimeout(t.round, qcRound, TcRound(tc), d.oneChainRound))
  }

  function CommitInfo(block: Block): Result<Option<Block>, Error> {
    match NextRound(block.Parent().Round())
    case Err(e) => Err(e)
    case Ok(next) => Ok(if next == block.Round() then Some(block.Parent()) else None)
  }

  function FreshData(epoch: nat): SafetyData {
    SafetyData(epoch, 0, 0, 0, None, 0)
  }

  // ---------------------------------------------------------------------------------------------
  // The operations as functions on a node: new state and outcome
  // ---------------------------------------------------------------------------------------------

  function CheckQc(n: Node, sigs: set<Signed>, qc: QuorumCert): Result<(), Error> {
    if n.epochState.None? then Err(NotInitialized)
    else if !n.skipSigVerify && !QcValid(n.epochState.value.verifier, sigs, qc) then Err(InvalidQuorumCertificate)
    else Ok(())
  }

  function CheckTc(n: Node, sigs: set<Signed>, tc: Option<TimeoutCert>): Result<(), Error> {
    if tc.None? then Ok(())
    else if n.epochState.None? then Err(NotInitialized)
    else if !n.skipSigVerify && !TcValid(n.epochState.value.verifier, sigs, tc.value) then
      Err(InvalidTimeoutCertificate)
    else Ok(())
  }

  function CheckProposal(n: Node, sigs: set<Signed>, p: VoteProposal): Result<(), Error> {
    if p.block.epoch != n.data.epoch then Err(IncorrectEpoch(p.block.epoch, n.data.epoch))
    else match CheckQc(n, sigs, p.block.Qc())
         case Err(e) => Err(e)
         case Ok(_) =>
           if !n.skipSigVerify && !p.signatureOk then Err(InvalidProposal)
           else if !WellFormed(p) then Err(InvalidProposal)
           else if !p.extensionOk then Err(InvalidAccumulatorExtension)
           else Ok(())
  }

  function VoteOp(n: Node, sigs: set<Signed>, p: VoteProposal, tc: Option<TimeoutCert>)
    : (Node, Result<Signed, Error>)
  {
    if n.signer.None? then (n, Err(NotInitialized))
    else match CheckProposal(n, sigs, p)
      case Err(e) => (n, Err(e))
      case Ok(_) =>
        match CheckTc(n, sigs, tc)
        case Err(e) => (n, Err(e))
        case Ok(_) =>
          if n.data.lastVote.Some? && n.data.lastVote.value.SVote?
             && n.data.lastVote.value.block.Round() == p.block.Round() then
            (n, Ok(n.data.lastVote.value))
          else if p.block.Round() <= n.data.lastVotedRound then
            (n, Err(IncorrectLastVotedRound(p.block.Round(), n.data.lastVotedRound)))
          else match SafeToVote(p.block, tc)
            case Err(e) => (n, Err(e))
            case Ok(_) =>
              match CommitInfo(p.block)
              case Err(e) => (n, Err(e))
              case Ok(commit) =>
                var vote := SVote(n.author, p.block, commit);
                var d := ObserveQc(p.block.qc, n.data.(lastVotedRound := p.block.Round()));
                (n.(data := d.(lastVote := Some(vote))), Ok(vote))
  }

  function TimeoutOp(n: Node, sigs: set<Signed>, t: Timeout, tc: Option<TimeoutCert>)
    : (Node, Result<Signed, Error>)
  {
    if n.signer.None? then (n, Err(NotInitialized))
    else if t.epoch != n.data.epoch then (n, Err(IncorrectEpoch(t.epoch, n.data.epoch)))
    else if !n.skipSigVerify && n.epochState.None? then (n, Err(NotInitialized))
    else if !n.skipSigVerify && !TimeoutValid(n.epochState.value.verifier, sigs, t) then (n, Err(InvalidTimeout))
    else match CheckTc(n, sigs, tc)
      case Err(e) => (n, Err(e))
      case Ok(_) =>
        match SafeToTimeout(t, tc, n.data)
        case Err(e) => (n, Err(e))
        case Ok(_) =>
          if t.round < n.data.lastVotedRound then
            (n, Err(IncorrectLastVotedRound(t.round, n.data.lastVotedRound)))
          else
            var d := n.data.(lastVotedRound := t.round,
                             highestTimeoutRound := Max(n.data.highestTimeoutRound, t.round));
            (n.(data := d), Ok(STimeout(n.author, t.epoch, t.round, t.HqcRound())))
  }

  function OrderVoteOp(n: Node, sigs: set<Signed>, block: Block, qc: QuorumCert)
    : (Node, Result<Signed, Error>)
  {
    if n.signer.None? then (n, Err(NotInitialized))
    else if block.epoch != n.data.epoch then (n, Err(IncorrectEpoch(block.epoch, n.data.epoch)))
    else if qc.certified != block then (n, Err(InvalidOneChainQuorumCertificate))
    else match CheckQc(n, sigs, qc)
      case Err(e) => (n, Err(e))
      case Ok(_) =>
        var d := ObserveQc(qc, n.data);
        if block.Round() <= d.highestTimeoutRound then
          (n, Err(NotSafeForOrderVote(block.Round(), d.highestTimeoutRound)))
        else (n.(data := d), Ok(SOrder(n.author, block)))
  }

  function ProposeOp(n: Node, sigs: set<Signed>, proposer: Author, block: Block)
    : (Node, Result<Signed, Error>)
  {
    if n.signer.None? then (n, Err(NotInitialized))
    else if block.Root? || proposer != n.author then (n, Err(InvalidProposal))
    else if block.epoch != n.data.epoch then (n, Err(IncorrectEpoch(block.epoch, n.data.epoch)))
    else if block.Round() <= n.data.lastVotedRound then (n, Err(InvalidProposal))
    else match CheckQc(n, sigs, block.qc)
      case Err(e) => (n, Err(e))
      case Ok(_) =>
        if block.qc.certified.Round() < n.data.preferredRound then
          (n, Err(IncorrectPreferredRound(block.qc.certified.Round(), n.data.preferredRound)))
        else (n, Ok(SProposal(n.author, block)))
  }

  /** Key reconciliation against the new validator set. */
  function Reconcile(n: Node, v: Verifier): (Node, Result<(), Error>) {
    match v.KeyOf(n.author)
    case None => (n.(signer := None), Err(ValidatorNotInSet))
    case Some(k) =>
      if n.signer == Some(k) then (n, Ok(()))
      else if k in n.keys then (n.(signer := Some(k)), Ok(()))
      else (n.(signer := None), Err(ValidatorKeyNotFound))
  }

  /** Take over the validator set that a verified ledger info installs. */
  function Install(n: Node, li: LedgerInfo): (Node, Result<(), Error>) {
    if li.next.None? then (n, Err(InvalidLedgerInfo))
    else
      var es := li.next.value;
      var w := WaypointOf(li);
      var n1 := if w.version > n.waypoint.version then n.(waypoint := w) else n;
      if n1.data.epoch > es.epoch then
        (n1, Err(WaypointOutOfDate(n.waypoint.version, w.version, n1.data.epoch, es.epoch)))
      else
        var d := if n1.data.epoch < es.epoch then FreshData(es.epoch) else n1.data;
        Reconcile(n1.(data := d, epochState := Some(es)), es.verifier)
  }

  function InitializeOp(n: Node, proof: EpochChangeProof): (Node, Result<(), Error>) {
    match VerifyResult(proof, TrustWaypoint(n.waypoint))
    case Err(e) => (n, Err(InvalidEpochChangeProof(e)))
    case Ok(li) => Install(n, li)
  }

  /** Signing an executed block touches no safety data. */
  function CommitVoteOp(n: Node, sigs: set<Signed>, commits: set<CommitVote>, cert: OrderedCert, block: Block,
                        result: Executed)
    : Result<CommitVote, Error>
  {
    if n.signer.None? then Err(NotInitialized)
    else if !cert.Fits(block, result) then Err(InvalidOrderedLedgerInfo)
    else if cert.Ordered() != Some(block) then Err(InconsistentExecutionResult)
    else if !n.skipSigVerify && n.epochState.None? then Err(NotInitialized)
    else if !n.skipSigVerify && !OrderedValid(n.epochState.value.verifier, sigs, commits, cert) then
      Err(InvalidQuorumCertificate)
    else Ok(CommitVote(n.author, block, result))
  }

  /** A process restart keeps only what was persisted. */
  function Restart(n: Node): Node {
    n.(signer := None, epochState := None)
  }

  // ---------------------------------------------------------------------------------------------
  // The operations as the code runs them
  // ---------------------------------------------------------------------------------------------

  class SafetyRules {
    const author: Author
    const keys: set<PublicKey>
    const skipSigVerify: bool
    var data: SafetyData
    var waypoint: Waypoint
    var validatorSigner: Option<PublicKey>
    var epochState: Option<EpochState>

    constructor (author: Author, data: SafetyData, waypoint: Waypoint, keys: set<PublicKey>, skip: bool)
      ensures View() == Node(author, data, waypoint, keys, None, None, skip)
    {
      this.author := author;
      this.keys := keys;
      this.skipSigVerify := skip;
      this.data := data;
      this.waypoint := waypoint;
      this.validatorSigner := None;
      this.epochState := None;
    }

    function View(): Node
      reads this
    {
      Node(author, data, waypoint, keys, validatorSigner, epochState, skipSigVerify)
    }

    method VerifyQc(sigs: set<Signed>, qc: QuorumCert) returns (r: Result<(), Error>)
      ensures r == CheckQc(View(), sigs, qc)
    {
      if epochState.None? {
        return Err(NotInitialized);
      }
      if !skipSigVerify && !QcValid(epochState.value.verifier, sigs, qc) {
        return Err(InvalidQuorumCertificate);
      }
      return Ok(());
    }

    method VerifyProposal(sigs: set<Signed>, p: VoteProposal) returns (r: Result<(), Error>)
      ensures r == CheckProposal(View(), sigs, p)
    {
      if p.block.epoch != data.epoch {
        return Err(IncorrectEpoch(p.block.epoch, data.epoch));
      }
      r := VerifyQc(sigs, p.block.Qc());
      if r.Err? {
        return;
      }
      if !skipSigVerify && !p.signatureOk {
        return Err(InvalidProposal);
      }
      if !WellFormed(p) {
        return Err(InvalidProposal);
      }
      if !p.extensionOk {
        return Err(InvalidAccumulatorExtension);
      }
    }

    method ConstructAndSignVoteTwoChain(sigs: set<Signed>, p: VoteProposal, tc: Option<TimeoutCert>)
        returns (r: Result<Signed, Error>)
      modifies this
      ensures (View(), r) == VoteOp(old(View()), sigs, p, tc)
    {
      if validatorSigner.None? {
        return Err(NotInitialized);
      }
      var checked := VerifyProposal(sigs, p);
      if checked.Err? {
        return Err(checked.error);
      }
      var tcChecked := CheckTc(View(), sigs, tc);
      if tcChecked.Err? {
        return Err(tcChecked.error);
      }
      var safetyData := data;
      if safetyData.lastVote.Some? {
        var vote := safetyData.lastVote.value;
        if vote.SVote? && vote.block.Round() == p.block.Round() {
          return Ok(vote);
        }
      }
      if p.block.Round() <= safetyData.lastVotedRound {
        return Err(IncorrectLastVotedRound(p.block.Round(), safetyData.lastVotedRound));
      }
      safetyData := safetyData.(lastVotedRound := p.block.Round());
      var safe := SafeToVote(p.block, tc);
      if safe.Err? {
        return Err(safe.error);
      }
      safetyData := ObserveQc(p.block.qc, safetyData);
      // the round after the parent's exists, or the vote would not have been safe
      var ledgerInfo := CommitInfo(p.block);
      var vote := SVote(author, p.block, ledgerInfo.value);
      safetyData := safetyData.(lastVote := Some(vote));
      data := safetyData;
      return Ok(vote);
    }

    method SignTimeoutWithQc(sigs: set<Signed>, t: Timeout, tc: Option<TimeoutCert>)
        returns (r: Result<Signed, Error>)
      modifies this
      ensures (View(), r) == TimeoutOp(old(View()), sigs, t, tc)
    {
      if validatorSigner.None? {
        return Err(NotInitialized);
      }
      var safetyData := data;
      if t.epoch != safetyData.epoch {
        return Err(IncorrectEpoch(t.epoch, safetyData.epoch));
      }
      if !skipSigVerify {
        if epochState.None? {
          return Err(NotInitialized);
        }
        if !TimeoutValid(epochState.value.verifier, sigs, t) {
          return Err(InvalidTimeout);
        }
      }
      var tcChecked := CheckTc(View(), sigs, tc);
      if tcChecked.Err? {
        return Err(tcChecked.error);
      }
      var safe := SafeToTimeout(t, tc, safetyData);
      if safe.Err? {
        return Err(safe.error);
      }
      if t.round < safetyData.lastVotedRound {
        return Err(IncorrectLastVotedRound(t.round, safetyData.lastVotedRound));
      }
      if t.round > safetyData.lastVotedRound {
        safetyData := safetyData.(lastVotedRound := t.round);
      }
      if t.round > safetyData.highestTimeoutRound {
        safetyData := safetyData.(highestTimeoutRound := t.round);
      }
      data := safetyData;
      return Ok(STimeout(author, t.epoch, t.round, t.HqcRound()));
    }

    method ConstructAndSignOrderVote(sigs: set<Signed>, block: Block, qc: QuorumCert)
        returns (r: Result<Signed, Error>)
      modifies this
      ensures (View(), r) == OrderVoteOp(old(View()), sigs, block, qc)
    {
      if validatorSigner.None? {
        return Err(NotInitialized);
      }
      if block.epoch != data.epoch {
        return Err(IncorrectEpoch(block.epoch, data.epoch));
      }
      if qc.certified != block {
        return Err(InvalidOneChainQuorumCertificate);
      }
      var checked := VerifyQc(sigs, qc);
      if checked.Err? {
        return Err(checked.error);
      }
      var safetyData := ObserveQc(qc, data);
      if block.Round() <= safetyData.highestTimeoutRound {
        return Err(NotSafeForOrderVote(block.Round(), safetyData.highestTimeoutRound));
      }
      data := safetyData;
      return Ok(SOrder(author, block));
    }

    method SignProposal(sigs: set<Signed>, proposer: Author, block: Block) returns (r: Result<Signed, Error>)
      ensures (View(), r) == ProposeOp(View(), sigs, proposer, block)
    {
      if validatorSigner.None? {
        return Err(NotInitialized);
      }
      if block.Root? || proposer != author {
        return Err(InvalidProposal);
      }
      if block.epoch != data.epoch {
        return Err(IncorrectEpoch(block.epoch, data.epoch));
      }
      if block.Round() <= data.lastVotedRound {
        return Err(InvalidProposal);
      }
      var checked := VerifyQc(sigs, block.qc);
      if checked.Err? {
        return Err(checked.error);
      }
      if block.qc.certified.Round() < data.preferredRound {
        return Err(IncorrectPreferredRound(block.qc.certified.Round(), data.preferredRound));
      }
      return Ok(SProposal(author, block));
    }

    method SignCommitVote(sigs: set<Signed>, commits: set<CommitVote>, cert: OrderedCert, block: Block,
                          result: Executed)
        returns (r: Result<CommitVote, Error>)
      ensures r == CommitVoteOp(View(), sigs, commits, cert, block, result)
    {
      if validatorSigner.None? {
        return Err(NotInitialized);
      }
      if !cert.Fits(block, result) {
        return Err(InvalidOrderedLedgerInfo);
      }
      if cert.Ordered() != Some(block) {
        return Err(InconsistentExecutionResult);
      }
      if !skipSigVerify {
        if epochState.None? {
          return Err(NotInitialized);
        }
        if !OrderedValid(epochState.value.verifier, sigs, commits, cert) {
          return Err(InvalidQuorumCertificate);
        }
      }
      return Ok(CommitVote(author, block, result));
    }

    method Initialize(proof: EpochChangeProof) returns (r: Result<(), Error>)
      modifies this
      ensures (View(), r) == InitializeOp(old(View()), proof)
    {
      var prev := waypoint;
      var verified := VerifyProof(proof, TrustWaypoint(prev));
      if verified.Err? {
        return Err(InvalidEpochChangeProof(verified.error));
      }
      var li := verified.value;
      var es := li.next.value;
      var newWaypoint := WaypointOf(li);
      if newWaypoint.version > prev.version {
        waypoint := newWaypoint;
      }
      var currentEpoch := data.epoch;
      if currentEpoch > es.epoch {
        return Err(WaypointOutOfDate(prev.version, newWaypoint.version, currentEpoch, es.epoch));
      } else if currentEpoch < es.epoch {
        data := FreshData(es.epoch);
      }
      epochState := Some(es);
      match es.verifier.KeyOf(author) {
        case None =>
          r := Err(ValidatorNotInSet);
        case Some(expected) =>
          if validatorSigner == Some(expected) {
            r := Ok(());
          } else if expected in keys {
            validatorSigner := Some(expected);
            r := Ok(());
          } else {
            r := Err(ValidatorKeyNotFound);
          }
      }
      if r.Err? {
        validatorSigner := None;
      }
    }
  }
}
