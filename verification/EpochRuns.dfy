/**
 Runs that do pass from epoch to epoch: one validator votes for a block, orders it, signs its execution, which ends the
 epoch, and initialises into the next from a proof made of its own signature, as often as wanted.
 */
module EpochRuns {
  import opened Wrappers
  import opened Quorum
  import opened EpochChange
  import opened SafetyRules
  import opened TwoChain
  import opened QuorumProgress
  import opened EpochEndings

  /** Every block above the root ends its epoch. */
  function Ends(b: Block): Executed {
    Executed(b.epoch, 0, if b.Round() > 0 then Some(StateOf(AloneHistory(), b.epoch + 1)) else None)
  }

  lemma {:induction false} DescentKeepsEpoch(c: Block, b: Block)
    requires Descends(c, b)
    ensures c.epoch == b.epoch && b.Round() <= c.Round()
    decreases c
  {
    if c != b { DescentKeepsEpoch(c.qc.certified, b); }
  }

  /** The execution is one that is allowed, and it does end epochs. */
  lemma EndsIsOk()
    ensures ExecutionOk(Ends)
  {
    forall b: Block, c: Block | Descends(c, b) && Ends(b).next.Some? ensures Ends(c).next == Ends(b).next {
      DescentKeepsEpoch(c, b);
    }
  }

  lemma EndsIsNamed(sigs: set<Signed>)
    ensures Named(AloneHistory(), Ends, sigs)
  {
    forall e: nat, b: Block | EndsAt(AloneHistory(), Ends, sigs, e, b)
      ensures exists c: Block ::
                EndsAt(AloneHistory(), Ends, sigs, e, c) && Ends(c).next.value == StateOf(AloneHistory(), e + 1)
    {
      assert Ends(b).next.value == StateOf(AloneHistory(), e + 1);
    }
  }

  function RootCert(e: nat): QuorumCert {
    QuorumCert(Root(e, 0), Some(Root(e, 0)), {})
  }

  /** The first block of epoch `e`. */
  function Only(e: nat): Block {
    Child(e, 1, 0, RootCert(e))
  }

  function OnlyCert(e: nat): QuorumCert {
    QuorumCert(Only(e), Some(Root(e, 0)), {0})
  }

  /** The ledger info that ends epoch `e`. */
  function Ending(e: nat): LedgerInfo {
    LedgerInfo(e, e, 0, Some(StateOf(AloneHistory(), e + 1)))
  }

  /** From the ledger info of the waypoint, which needs no signature, to the end of epoch `e`. */
  function ProofOf(e: nat): EpochChangeProof
    requires e > 0
  {
    EpochChangeProof([SignedLedgerInfo(Ending(e - 1), {}), SignedLedgerInfo(Ending(e), {0})], false)
  }

  /** The validator at the beginning of epoch `e`. */
  function Ready(e: nat): Node
    requires e > 0
  {
    Node(0, FreshData(e), WaypointOf(Ending(e - 1)), {0}, Some(0), Some(StateOf(AloneHistory(), e)), false)
  }

  /** The same with its vote on the only block, before and after it observed the certificate. */
  function Voted(e: nat): Node
    requires e > 0
  {
    Ready(e).(data := SafetyData(e, 1, 0, 0, Some(SVote(0, Only(e), Some(Root(e, 0)))), 0))
  }

  function Ordering(e: nat): Node
    requires e > 0
  {
    Voted(e).(data := Voted(e).data.(oneChainRound := 1))
  }

  lemma Votes(e: nat, sigs: set<Signed>)
    requires e > 0
    ensures VoteOp(Ready(e), sigs, VoteProposal(Only(e), true, true, true), None)
            == (Voted(e), Ok(SVote(0, Only(e), Some(Root(e, 0)))))
  {
  }

  lemma OrdersVote(e: nat, sigs: set<Signed>)
    requires e > 0 && SVote(0, Only(e), Some(Root(e, 0))) in sigs
    ensures OrderVoteOp(Voted(e), sigs, Only(e), OnlyCert(e)) == (Ordering(e), Ok(SOrder(0, Only(e))))
  {
    AloneIsQuorum();
    assert QcValid(Alone(), sigs, OnlyCert(e));
  }

  lemma Signs(e: nat, sigs: set<Signed>, commits: set<CommitVote>)
    requires e > 0 && SOrder(0, Only(e)) in sigs
    ensures CommitVoteOp(Ordering(e), sigs, commits, ByOrderVotes(Only(e), {0}), Only(e), Ends(Only(e)))
            == Ok(CommitVote(0, Only(e), Ends(Only(e))))
    ensures LedgerInfoOf(CommitVote(0, Only(e), Ends(Only(e)))) == Ending(e)
  {
    AloneIsQuorum();
  }

  lemma ProofVerifies(e: nat)
    requires e > 0
    ensures VerifyResult(ProofOf(e), TrustWaypoint(WaypointOf(Ending(e - 1)))) == Ok(Ending(e))
  {
    AloneIsQuorum();
    var trust, infos := TrustWaypoint(WaypointOf(Ending(e - 1))), ProofOf(e).infos;
    assert FirstFresh(trust, infos) == 0 && infos[0..] == infos;
    var rest, next := infos[1..], TrustEpoch(StateOf(AloneHistory(), e));
    assert rest == [SignedLedgerInfo(Ending(e), {0})] && rest[1..] == [] && next.Accepts(rest[0]);
    assert ChainResult(next, rest) == Ok(());
    assert trust.Accepts(infos[0]) && ChainResult(trust, infos) == ChainResult(next, rest);
  }

  lemma Initialises(e: nat)
    requires e > 0
    ensures InitializeOp(Ordering(e), ProofOf(e)).0 == Ready(e + 1)
  {
    AloneIsQuorum();
    ProofVerifies(e);
  }

  // ---------------------------------------------------------------------------------------------
  // The run
  // ---------------------------------------------------------------------------------------------

  function Solo(n: Node): map<Author, Node> {
    map[0 := n]
  }

  /** The validator of epoch `e` before it has initialised for the first time. */
  function Asleep(e: nat): Node
    requires e > 0
  {
    Ready(e).(signer := None, epochState := None)
  }

  function FirstProof(e: nat): EpochChangeProof
    requires e > 0
  {
    EpochChangeProof([SignedLedgerInfo(Ending(e - 1), {})], false)
  }

  lemma WakesUp(e: nat)
    requires e > 0
    ensures InitializeOp(Asleep(e), FirstProof(e)).0 == Ready(e)
  {
    AloneIsQuorum();
    var trust, infos := TrustWaypoint(WaypointOf(Ending(e - 1))), FirstProof(e).infos;
    assert FirstFresh(trust, infos) == 0 && infos[0..] == infos && infos[1..] == [];
    assert trust.Accepts(infos[0]) && ChainResult(trust, infos) == Ok(());
  }

  /** A run that has come to state `s`. */
  ghost predicate Reaches(s: State) {
    exists ss: seq<State>, steps: seq<Step> :: RunTo(ss, steps, s)
  }

  ghost predicate RunTo(ss: seq<State>, steps: seq<Step>, s: State) {
    EpochEndings.Run(AloneHistory(), Ends, ss, steps) && ss[|steps|] == s
  }

  lemma OneMore(s: State, step: Step)
    requires Reaches(s) && EpochEndings.Enabled(AloneHistory(), s, step)
    ensures Reaches(Next(AloneHistory(), Ends, s, step))
  {
    var ss, steps :| RunTo(ss, steps, s);
    var s' := Next(AloneHistory(), Ends, s, step);
    EndsIsNamed(s'.c.sigs);
    var all, more := ss + [s'], steps + [step];
    forall i | 0 <= i < |all| ensures Named(AloneHistory(), Ends, all[i].c.sigs) {
      if i < |ss| { assert all[i] == ss[i]; }
    }
    forall i | 0 <= i < |more|
      ensures EpochEndings.Enabled(AloneHistory(), all[i], more[i])
      ensures all[i + 1] == Next(AloneHistory(), Ends, all[i], more[i])
    {
      if i < |steps| { assert steps[i] == more[i] && all[i] == ss[i] && all[i + 1] == ss[i + 1]; }
    }
    assert RunTo(all, more, s');
  }

  /** The epoch was passed: its only block is committed, and a quorum signed the ledger info that ends it. */
  ghost predicate Passed(s: State, e: nat) {
    && Committed(AloneHistory(), s.c.sigs, Only(e))
    && SignedByAll(s.commits, SignedLedgerInfo(Ending(e), {0}))
  }

  lemma PassedStays(s: State, s': State, e: nat)
    requires Passed(s, e) && s.c.sigs <= s'.c.sigs && s.commits <= s'.commits
    ensures Passed(s', e)
  {
    CommitMonotone(AloneHistory(), s.c.sigs, s'.c.sigs, Only(e));
    assert SignedBy(s.commits, 0, Ending(e));
    var v :| v in s.commits && v.author == 0 && LedgerInfoOf(v) == Ending(e);
    assert SignedBy(s'.commits, 0, Ending(e));
  }

  lemma StartsWell(e: nat, c: Cluster)
    requires e > 0 && c == Cluster(Solo(Asleep(e)), {})
    ensures TwoChain.Init(AloneHistory(), c) && Tolerable(AloneHistory(), c.nodes.Keys)
  {
    AloneIsQuorum();
    assert c.nodes.Keys == {0};
  }

  lemma Begins(e: nat) returns (s: State)
    requires e > 0
    ensures Reaches(s) && s.c.nodes == Solo(Ready(e))
  {
    var asleep := State(Cluster(Solo(Asleep(e)), {}), {});
    StartsWell(e, asleep.c);
    EndsIsNamed({});
    assert RunTo([asleep], [], asleep);
    s := WakesInRun(asleep, e);
  }

  lemma WakesInRun(s: State, e: nat) returns (s': State)
    requires e > 0 && Reaches(s) && s.c.nodes == Solo(Asleep(e))
    ensures Reaches(s') && s'.c.nodes == Solo(Ready(e))
  {
    var step := Act(ActInitialize(0, FirstProof(e)));
    WakesUp(e);
    OneMore(s, step);
    s' := EpochEndings.Next(AloneHistory(), Ends, s, step);
    assert s'.c.nodes == Solo(Ready(e));
  }

  lemma VotesInRun(s: State, e: nat) returns (s': State)
    requires e > 0 && Reaches(s) && s.c.nodes == Solo(Ready(e))
    ensures Reaches(s') && s'.commits == s.commits
    ensures s'.c == Cluster(Solo(Voted(e)), s.c.sigs + {SVote(0, Only(e), Some(Root(e, 0)))})
  {
    var step := Act(ActVote(0, VoteProposal(Only(e), true, true, true), None));
    Votes(e, s.c.sigs);
    OneMore(s, step);
    s' := EpochEndings.Next(AloneHistory(), Ends, s, step);
    assert s'.c.nodes == Solo(Voted(e));
  }

  lemma OrdersInRun(s: State, e: nat) returns (s': State)
    requires e > 0 && Reaches(s) && s.c.nodes == Solo(Voted(e)) && SVote(0, Only(e), Some(Root(e, 0))) in s.c.sigs
    ensures Reaches(s') && s'.commits == s.commits
    ensures s'.c == Cluster(Solo(Ordering(e)), s.c.sigs + {SOrder(0, Only(e))})
    ensures Committed(AloneHistory(), s'.c.sigs, Only(e))
  {
    var step := Act(ActOrderVote(0, Only(e), OnlyCert(e)));
    OrdersVote(e, s.c.sigs);
    OneMore(s, step);
    s' := EpochEndings.Next(AloneHistory(), Ends, s, step);
    assert s'.c.nodes == Solo(Ordering(e));
    OrderedAlone(e, s'.c.sigs);
  }

  lemma OrderedAlone(e: nat, sigs: set<Signed>)
    requires SOrder(0, Only(e)) in sigs
    ensures Committed(AloneHistory(), sigs, Only(e))
  {
    AloneIsQuorum();
    assert OrderedBy(AloneHistory(), sigs, Only(e), {0});
  }

  lemma SignsInRun(s: State, e: nat) returns (s': State)
    requires e > 0 && Reaches(s) && s.c.nodes == Solo(Ordering(e)) && SOrder(0, Only(e)) in s.c.sigs
    ensures Reaches(s') && s'.c == s.c && s.commits <= s'.commits && Passed(s', e)
  {
    var step := CommitStep(0, ByOrderVotes(Only(e), {0}), Only(e));
    Signs(e, s.c.sigs, s.commits);
    OneMore(s, step);
    s' := EpochEndings.Next(AloneHistory(), Ends, s, step);
    assert CommitVote(0, Only(e), Ends(Only(e))) in s'.commits;
    assert SignedBy(s'.commits, 0, Ending(e));
    OrderedAlone(e, s'.c.sigs);
  }

  lemma InitialisesInRun(s: State, e: nat) returns (s': State)
    requires e > 0 && Reaches(s) && s.c.nodes == Solo(Ordering(e)) && Passed(s, e)
    ensures Reaches(s') && s'.c == Cluster(Solo(Ready(e + 1)), s.c.sigs) && s'.commits == s.commits
  {
    var step := Act(ActInitialize(0, ProofOf(e)));
    assert Backed(s.commits, ProofOf(e));
    Initialises(e);
    OneMore(s, step);
    s' := EpochEndings.Next(AloneHistory(), Ends, s, step);
    assert s'.c.nodes == Solo(Ready(e + 1));
  }

  /** From the beginning of one epoch to the beginning of the next. */
  lemma PassEpoch(s: State, e: nat) returns (s': State)
    requires e > 0 && Reaches(s) && s.c.nodes == Solo(Ready(e))
    ensures Reaches(s') && s'.c.nodes == Solo(Ready(e + 1)) && Passed(s', e)
    ensures s.c.sigs <= s'.c.sigs && s.commits <= s'.commits
  {
    var a := VotesInRun(s, e);
    var b := OrdersInRun(a, e);
    var c := SignsInRun(b, e);
    s' := InitialisesInRun(c, e);
    PassedStays(c, s', e);
  }

  lemma {:induction false} PassEpochs(n: nat) returns (s: State)
    ensures Reaches(s) && s.c.nodes == Solo(Ready(n + 1)) && forall e: nat :: 0 < e <= n ==> Passed(s, e)
  {
    if n == 0 {
      s := Begins(1);
    } else {
      var before := PassEpochs(n - 1);
      s := PassEpoch(before, n);
      forall e: nat | 0 < e <= n ensures Passed(s, e) {
        if e < n { PassedStays(before, s, e); }
      }
    }
  }

  /**
   What is assumed of executions and runs does not keep epochs from ending: for every `n` there is a run of one
   validator that commits a block in each of the epochs 1 to `n`, signs the end of each, and is then in epoch `n + 1`.
   */
  lemma RunsPassEpochs(n: nat)
    ensures ExecutionOk(Ends)
    ensures exists ss: seq<State>, steps: seq<Step> ::
              && EpochEndings.Run(AloneHistory(), Ends, ss, steps)
              && var s := ss[|steps|];
                 && s.c.nodes == Solo(Ready(n + 1)) && Ready(n + 1).data.epoch == n + 1
                 && forall e: nat :: 0 < e <= n ==> Passed(s, e)
  {
    EndsIsOk();
    var s := PassEpochs(n);
    var ss, steps :| RunTo(ss, steps, s);
    assert EpochEndings.Run(AloneHistory(), Ends, ss, steps) && ss[|steps|] == s;
  }

  // ---------------------------------------------------------------------------------------------
  // The same within one epoch
  // ---------------------------------------------------------------------------------------------

  lemma WakeAct(e: nat, c: Cluster)
    requires e > 0 && c == Cluster(Solo(Asleep(e)), {})
    ensures TwoChain.Enabled(AloneHistory(), c, ActInitialize(0, FirstProof(e)))
    ensures TwoChain.Apply(AloneHistory(), c, ActInitialize(0, FirstProof(e))) == Cluster(Solo(Ready(e)), {})
  {
    WakesUp(e);
  }

  lemma VoteAct(e: nat, c: Cluster, vote: Signed)
    requires e > 0 && c == Cluster(Solo(Ready(e)), {}) && vote == SVote(0, Only(e), Some(Root(e, 0)))
    ensures var a := ActVote(0, VoteProposal(Only(e), true, true, true), None);
            && TwoChain.Enabled(AloneHistory(), c, a)
            && TwoChain.Apply(AloneHistory(), c, a) == Cluster(Solo(Voted(e)), {vote})
  {
    Votes(e, c.sigs);
  }

  lemma OrderAct(e: nat, c: Cluster, vote: Signed)
    requires e > 0 && c == Cluster(Solo(Voted(e)), {vote}) && vote == SVote(0, Only(e), Some(Root(e, 0)))
    ensures var a := ActOrderVote(0, Only(e), OnlyCert(e));
            && TwoChain.Enabled(AloneHistory(), c, a)
            && TwoChain.Apply(AloneHistory(), c, a) == Cluster(Solo(Ordering(e)), {vote, SOrder(0, Only(e))})
  {
    OrdersVote(e, c.sigs);
  }

  lemma ThreeActs(h: History, cs: seq<Cluster>, acts: seq<Action>)
    requires |cs| == 4 && |acts| == 3 && TwoChain.Init(h, cs[0]) && Tolerable(h, cs[0].nodes.Keys)
    requires TwoChain.Enabled(h, cs[0], acts[0]) && cs[1] == TwoChain.Apply(h, cs[0], acts[0])
    requires TwoChain.Enabled(h, cs[1], acts[1]) && cs[2] == TwoChain.Apply(h, cs[1], acts[1])
    requires TwoChain.Enabled(h, cs[2], acts[2]) && cs[3] == TwoChain.Apply(h, cs[2], acts[2])
    ensures TwoChain.Run(h, cs, acts)
  {
  }

  /** Blocks do get committed, in any epoch: by initialising, voting and ordering. */
  lemma BlocksGetCommitted(e: nat)
    requires e > 0
    ensures exists cs: seq<Cluster>, acts: seq<Action> ::
              && TwoChain.Run(AloneHistory(), cs, acts)
              && Only(e).Round() > 0 && Committed(AloneHistory(), cs[|acts|].sigs, Only(e))
  {
    var vote := SVote(0, Only(e), Some(Root(e, 0)));
    var c0, c1 := Cluster(Solo(Asleep(e)), {}), Cluster(Solo(Ready(e)), {});
    var c2, c3 := Cluster(Solo(Voted(e)), {vote}), Cluster(Solo(Ordering(e)), {vote, SOrder(0, Only(e))});
    var cs := [c0, c1, c2, c3];
    var acts := [ActInitialize(0, FirstProof(e)), ActVote(0, VoteProposal(Only(e), true, true, true), None),
                 ActOrderVote(0, Only(e), OnlyCert(e))];
    StartsWell(e, c0);
    WakeAct(e, c0);
    VoteAct(e, c1, vote);
    OrderAct(e, c2, vote);
    ThreeActs(AloneHistory(), cs, acts);
    OrderedAlone(e, c3.sigs);
    assert TwoChain.Run(AloneHistory(), cs, acts) && cs[|acts|] == c3;
  }

  /** Also a block proposed after a timeout, on an older certificate, gets committed. */
  lemma BlocksGetCommittedAfterTimeout(e: nat, id: nat)
    requires e > 0
    ensures exists cs: seq<Cluster>, acts: seq<Action> ::
              TwoChain.Run(AloneHistory(), cs, acts)
              && Committed(AloneHistory(), cs[|acts|].sigs, Skipping(RootCert(e), id))
  {
    var c0, c1 := Cluster(Solo(Asleep(e)), {}), Cluster(Solo(Ready(e)), {});
    var cs, acts := [c0, c1], [ActInitialize(0, FirstProof(e))];
    StartsWell(e, c0);
    WakeAct(e, c0);
    AloneIsQuorum();
    assert TwoChain.Run(AloneHistory(), cs, acts);
    assert AllAble(AloneHistory(), c1, {0}, e) && QcValid(Alone(), {}, RootCert(e));
    RunsCommitAfterTimeout(AloneHistory(), cs, acts, {0}, RootCert(e), id);
  }
}
