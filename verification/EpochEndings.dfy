/**
 From epoch to epoch: validators sign the ledger infos of executed blocks, and epoch change proofs are made of those
 signatures. Here initialisation takes any proof whose signatures exist, and that such proofs are genuine is proved.

 Given: execution is a function of the block; once a block ends its epoch, its descendants in the epoch, in rising
 rounds, carry the same next epoch; and if committed blocks end an epoch, one of them installs the validator set of the
 next. That they all install the same one is proved. `EpochRuns` has runs in which epochs do end.
 */
module EpochEndings {
  import opened Wrappers
  import opened Quorum
  import opened EpochChange
  import opened SafetyRules
  import opened TwoChain

  type Execution = Block -> Executed

  /** Every block on the way down from `b` has a parent of the same epoch and a lower round. */
  predicate Descends(b: Block, ancestor: Block) {
    || b == ancestor
    || (b.Child? && b.qc.certified.epoch == b.epoch && b.qc.certified.Round() < b.Round()
        && Descends(b.qc.certified, ancestor))
  }

  ghost predicate ExecutionOk(exec: Execution) {
    && (forall b: Block :: exec(b).next.Some? ==> b.Round() > 0 && exec(b).next.value.epoch == b.epoch + 1)
    && (forall b: Block, c: Block :: Descends(c, b) && exec(b).next.Some? ==> exec(c).next == exec(b).next)
  }

  function LedgerInfoOf(v: CommitVote): LedgerInfo {
    LedgerInfo(v.block.epoch, v.result.version, v.result.digest, v.result.next)
  }

  /** `a` signed a commit vote for this ledger info. */
  ghost predicate SignedBy(commits: set<CommitVote>, a: Author, li: LedgerInfo) {
    exists v :: v in commits && v.author == a && LedgerInfoOf(v) == li
  }

  ghost predicate SignedByAll(commits: set<CommitVote>, li: SignedLedgerInfo) {
    forall a :: a in li.signers ==> SignedBy(commits, a, li.info)
  }

  ghost predicate Backed(commits: set<CommitVote>, proof: EpochChangeProof) {
    forall i :: 0 <= i < |proof.infos| ==> SignedByAll(commits, proof.infos[i])
  }

  datatype State = State(c: Cluster, commits: set<CommitVote>)

  datatype Step =
    | Act(a: Action)
    | CommitStep(who: Author, cert: OrderedCert, block: Block)
    | FaultyCommit(vote: CommitVote)

  ghost predicate EndsAt(h: History, exec: Execution, sigs: set<Signed>, e: nat, b: Block) {
    Committed(h, sigs, b) && b.epoch == e && exec(b).next.Some?
  }

  /** The history names what happened: if an epoch has ended, some committed block installs the next one. */
  ghost predicate Named(h: History, exec: Execution, sigs: set<Signed>) {
    forall e: nat, b: Block :: EndsAt(h, exec, sigs, e, b) ==>
      exists c: Block :: EndsAt(h, exec, sigs, e, c) && exec(c).next.value == StateOf(h, e + 1)
  }

  /** Every committed block that ends its epoch installs the next one. */
  ghost predicate Installs(h: History, exec: Execution, sigs: set<Signed>) {
    forall b: Block :: Committed(h, sigs, b) && exec(b).next.Some? ==> exec(b).next.value == StateOf(h, b.epoch + 1)
  }

  /** Commit votes are asked for in the validator's current epoch, with the execution's own result. */
  ghost predicate Enabled(h: History, s: State, step: Step) {
    match step
    case Act(a) =>
      if a.ActInitialize? then a.who in s.c.nodes && Backed(s.commits, a.proof) else TwoChain.Enabled(h, s.c, a)
    case CommitStep(who, cert, block) =>
      && who in s.c.nodes
      && var n := s.c.nodes[who];
         block.epoch == n.data.epoch && (n.skipSigVerify ==> OrderedValid(h(n.data.epoch), s.c.sigs, s.commits, cert))
    case FaultyCommit(v) => v.author !in s.c.nodes
  }

  ghost function Next(h: History, exec: Execution, s: State, step: Step): State
    requires Enabled(h, s, step)
  {
    match step
    case Act(a) => s.(c := TwoChain.Apply(h, s.c, a))
    case CommitStep(who, cert, block) =>
      (match CommitVoteOp(s.c.nodes[who], s.c.sigs, s.commits, cert, block, exec(block))
       case Ok(v) => s.(commits := s.commits + {v})
       case Err(_) => s)
    case FaultyCommit(v) => s.(commits := s.commits + {v})
  }

  ghost predicate Run(h: History, exec: Execution, ss: seq<State>, steps: seq<Step>) {
    && |ss| == |steps| + 1
    && TwoChain.Init(h, ss[0].c) && Tolerable(h, ss[0].c.nodes.Keys) && ss[0].commits == {}
    && (forall i :: 0 <= i < |ss| ==> Named(h, exec, ss[i].c.sigs))
    && forall i {:trigger steps[i]} :: 0 <= i < |steps| ==>
         Enabled(h, ss[i], steps[i]) && ss[i + 1] == Next(h, exec, ss[i], steps[i])
  }

  /** An honest commit vote is for a committed block, with its own result. */
  ghost predicate CommitsOk(h: History, exec: Execution, s: State) {
    forall v :: v in s.commits && v.author in s.c.nodes ==>
      v.result == exec(v.block) && Committed(h, s.c.sigs, v.block)
  }

  ghost predicate Inv(h: History, exec: Execution, s: State) {
    TwoChain.Inv(h, s.c) && CommitsOk(h, exec, s)
  }

  // ---------------------------------------------------------------------------------------------
  // What is ordered is committed
  // ---------------------------------------------------------------------------------------------

  lemma OrderedByVotes(h: History, c: Cluster, qc: QuorumCert, b: Block)
    requires TwoChain.Inv(h, c) && h(b.epoch).IsQuorum(qc.signers) && VoteSigned(c.sigs, qc) && qc.commit == Some(b)
    ensures Committed(h, c.sigs, b)
  {
    HonestInBoth(h, c.nodes.Keys, b.epoch, qc.signers, qc.signers);
    var a :| a in qc.signers && a in c.nodes.Keys;
    var vote := SVote(a, qc.certified, qc.commit);
    assert vote in c.sigs && MsgSound(h, c.sigs, vote);
    assert CommittedByQc(h, c.sigs, b);
  }

  lemma OrderedByCommits(h: History, exec: Execution, s: State, b: Block, r: Executed, signers: set<Author>)
    requires Inv(h, exec, s) && h(b.epoch).IsQuorum(signers)
    requires forall a :: a in signers ==> CommitVote(a, b, r) in s.commits
    ensures Committed(h, s.c.sigs, b)
  {
    HonestInBoth(h, s.c.nodes.Keys, b.epoch, signers, signers);
    var a :| a in signers && a in s.c.nodes.Keys;
    assert CommitVote(a, b, r) in s.commits;
  }

  lemma OrderedIsCommitted(h: History, exec: Execution, s: State, cert: OrderedCert, b: Block)
    requires Inv(h, exec, s) && OrderedValid(h(b.epoch), s.c.sigs, s.commits, cert) && cert.Ordered() == Some(b)
    ensures Committed(h, s.c.sigs, b)
  {
    match cert
    case ByVotes(qc) => OrderedByVotes(h, s.c, qc, b);
    case ByOrderVotes(_, signers) => assert OrderedBy(h, s.c.sigs, b, signers);
    case ByCommitVotes(_, r, signers) => OrderedByCommits(h, exec, s, b, r, signers);
  }

  // ---------------------------------------------------------------------------------------------
  // Proofs made of signatures are genuine
  // ---------------------------------------------------------------------------------------------

  /** Behind a quorum-signed ledger info stands a committed block and its result. */
  lemma QuorumSignedIsCommitted(h: History, exec: Execution, s: State, li: SignedLedgerInfo)
    requires Inv(h, exec, s) && SignedByAll(s.commits, li) && h(li.info.epoch).IsQuorum(li.signers)
    ensures exists b: Block :: Committed(h, s.c.sigs, b) && b.epoch == li.info.epoch && exec(b).next == li.info.next
  {
    HonestInBoth(h, s.c.nodes.Keys, li.info.epoch, li.signers, li.signers);
    var a :| a in li.signers && a in s.c.nodes.Keys;
    assert SignedBy(s.commits, a, li.info);
    var v :| v in s.commits && v.author == a && LedgerInfoOf(v) == li.info;
    assert Committed(h, s.c.sigs, v.block) && v.block.epoch == li.info.epoch && exec(v.block).next == li.info.next;
  }

  /** Below a certified block every ancestor is a real one: of its epoch, in falling rounds. */
  lemma {:induction false} CertifiedDescends(h: History, honest: set<Author>, sigs: set<Signed>, c: Block, b: Block)
    requires Tolerable(h, honest) && SigsSound(h, honest, sigs) && Certified(h, sigs, c) && Extends(c, b)
    ensures Descends(c, b)
    decreases c
  {
    if c != b {
      ParentCertified(h, honest, sigs, c);
      CertifiedDescends(h, honest, sigs, c.qc.certified, b);
    }
  }

  /** Committed blocks that end the same epoch agree on the next one. */
  lemma EndsAgree(h: History, exec: Execution, c: Cluster, e: nat, b: Block, b': Block)
    requires ExecutionOk(exec) && TwoChain.Inv(h, c)
    requires EndsAt(h, exec, c.sigs, e, b) && EndsAt(h, exec, c.sigs, e, b')
    ensures exec(b).next == exec(b').next
  {
    CommittedAgree(h, c.nodes.Keys, c.sigs, b, b');
    CommittedLocks(h, c.nodes.Keys, c.sigs, b);
    CommittedLocks(h, c.nodes.Keys, c.sigs, b');
    if Extends(b, b') {
      CertifiedDescends(h, c.nodes.Keys, c.sigs, b, b');
    } else {
      CertifiedDescends(h, c.nodes.Keys, c.sigs, b', b);
    }
  }

  /** So if one of them installs the named epoch, all do. */
  lemma NamedInstalls(h: History, exec: Execution, c: Cluster)
    requires ExecutionOk(exec) && TwoChain.Inv(h, c) && Named(h, exec, c.sigs)
    ensures Installs(h, exec, c.sigs)
  {
    forall b: Block | Committed(h, c.sigs, b) && exec(b).next.Some?
      ensures exec(b).next.value == StateOf(h, b.epoch + 1)
    {
      assert EndsAt(h, exec, c.sigs, b.epoch, b);
      var b': Block :| EndsAt(h, exec, c.sigs, b.epoch, b') && exec(b').next.value == StateOf(h, b.epoch + 1);
      EndsAgree(h, exec, c, b.epoch, b, b');
    }
  }

  lemma BackedIsGenuine(h: History, exec: Execution, s: State, proof: EpochChangeProof)
    requires ExecutionOk(exec) && Inv(h, exec, s) && Named(h, exec, s.c.sigs) && Backed(s.commits, proof)
    ensures GenuineProof(h, proof)
  {
    NamedInstalls(h, exec, s.c);
    forall i | 0 <= i < |proof.infos| ensures Genuine(h, proof.infos[i]) {
      var li := proof.infos[i];
      if h(li.info.epoch).IsQuorum(li.signers) && li.info.next.Some? {
        QuorumSignedIsCommitted(h, exec, s, li);
      }
    }
  }

  /** Without any assumption on the next epoch: all quorum-signed ends of an epoch install the same one. */
  lemma EndingsAgree(h: History, exec: Execution, s: State, x: SignedLedgerInfo, y: SignedLedgerInfo)
    requires ExecutionOk(exec) && Inv(h, exec, s)
    requires SignedByAll(s.commits, x) && h(x.info.epoch).IsQuorum(x.signers) && x.info.next.Some?
    requires SignedByAll(s.commits, y) && h(y.info.epoch).IsQuorum(y.signers) && y.info.next.Some?
    requires x.info.epoch == y.info.epoch
    ensures x.info.next == y.info.next
  {
    QuorumSignedIsCommitted(h, exec, s, x);
    QuorumSignedIsCommitted(h, exec, s, y);
    var b: Block :| Committed(h, s.c.sigs, b) && b.epoch == x.info.epoch && exec(b).next == x.info.next;
    var c: Block :| Committed(h, s.c.sigs, c) && c.epoch == y.info.epoch && exec(c).next == y.info.next;
    EndsAgree(h, exec, s.c, x.info.epoch, b, c);
  }

  // ---------------------------------------------------------------------------------------------
  // Every run
  // ---------------------------------------------------------------------------------------------

  lemma ActIsEnabled(h: History, exec: Execution, s: State, a: Action)
    requires ExecutionOk(exec) && Inv(h, exec, s) && Named(h, exec, s.c.sigs) && Enabled(h, s, Act(a))
    ensures TwoChain.Enabled(h, s.c, a)
  {
    if a.ActInitialize? { BackedIsGenuine(h, exec, s, a.proof); }
  }

  lemma ActKeepsInv(h: History, exec: Execution, s: State, a: Action)
    requires ExecutionOk(exec) && Inv(h, exec, s) && Named(h, exec, s.c.sigs) && Enabled(h, s, Act(a))
    ensures Inv(h, exec, Next(h, exec, s, Act(a)))
    ensures s.c.sigs <= Next(h, exec, s, Act(a)).c.sigs
  {
    ActIsEnabled(h, exec, s, a);
    TwoChain.StepKeepsInv(h, s.c, a);
    var s' := Next(h, exec, s, Act(a));
    forall v | v in s'.commits && v.author in s'.c.nodes
      ensures v.result == exec(v.block) && Committed(h, s'.c.sigs, v.block)
    {
      CommitMonotone(h, s.c.sigs, s'.c.sigs, v.block);
    }
  }

  lemma CommitKeepsInv(h: History, exec: Execution, s: State, who: Author, cert: OrderedCert, block: Block)
    requires Inv(h, exec, s) && Enabled(h, s, CommitStep(who, cert, block))
    ensures Inv(h, exec, Next(h, exec, s, CommitStep(who, cert, block)))
  {
    var n := s.c.nodes[who];
    if CommitVoteOp(n, s.c.sigs, s.commits, cert, block, exec(block)).Ok? {
      assert NodeOk(h, s.c.sigs, n);
      OrderedIsCommitted(h, exec, s, cert, block);
    }
  }

  lemma {:induction false} RunKeepsInv(h: History, exec: Execution, ss: seq<State>, steps: seq<Step>, k: nat)
    requires ExecutionOk(exec) && Run(h, exec, ss, steps) && k < |ss|
    ensures Inv(h, exec, ss[k])
    ensures forall i :: 0 <= i <= k ==> ss[i].c.sigs <= ss[k].c.sigs
    decreases k
  {
    if k > 0 {
      RunKeepsInv(h, exec, ss, steps, k - 1);
      assert steps[k - 1] == steps[k - 1];
      match steps[k - 1]
      case Act(a) => ActKeepsInv(h, exec, ss[k - 1], a);
      case CommitStep(who, cert, block) => CommitKeepsInv(h, exec, ss[k - 1], who, cert, block);
      case FaultyCommit(v) =>
    }
  }

  /**
   Over all epochs: in every run, with initialisation from any proof whose signatures exist, blocks of an epoch
   committed at any two moments are on one chain.
   */
  lemma CommitSafetyAcrossEpochs(h: History, exec: Execution, ss: seq<State>, steps: seq<Step>, i: nat, j: nat,
                                 b: Block, b': Block)
    requires ExecutionOk(exec) && Run(h, exec, ss, steps) && i < |ss| && j < |ss|
    requires Committed(h, ss[i].c.sigs, b) && Committed(h, ss[j].c.sigs, b')
    requires b.epoch == b'.epoch && b.Round() > 0 && b'.Round() > 0
    ensures Extends(b, b') || Extends(b', b)
  {
    var last := if i <= j then j else i;
    RunKeepsInv(h, exec, ss, steps, last);
    CommitMonotone(h, ss[i].c.sigs, ss[last].c.sigs, b);
    CommitMonotone(h, ss[j].c.sigs, ss[last].c.sigs, b');
    CommittedAgree(h, ss[last].c.nodes.Keys, ss[last].c.sigs, b, b');
  }

  /** In every run the quorum-signed ends of an epoch agree, and install the epoch that the history names. */
  lemma EpochsEndOneWay(h: History, exec: Execution, ss: seq<State>, steps: seq<Step>, k: nat,
                        x: SignedLedgerInfo, y: SignedLedgerInfo)
    requires ExecutionOk(exec) && Run(h, exec, ss, steps) && k < |ss|
    requires SignedByAll(ss[k].commits, x) && h(x.info.epoch).IsQuorum(x.signers) && x.info.next.Some?
    requires SignedByAll(ss[k].commits, y) && h(y.info.epoch).IsQuorum(y.signers) && y.info.next.Some?
    requires x.info.epoch == y.info.epoch
    ensures x.info.next == y.info.next == Some(StateOf(h, x.info.epoch + 1))
  {
    RunKeepsInv(h, exec, ss, steps, k);
    EndingsAgree(h, exec, ss[k], x, y);
    NamedInstalls(h, exec, ss[k].c);
    QuorumSignedIsCommitted(h, exec, ss[k], x);
  }
}
