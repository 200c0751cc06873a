/**
 Initialisation from paged storage, and retrying of refused requests
 (consensus/src/metrics_safety_rules.rs over storage/lumiodb/src/db/lumiodb_reader.rs).
 */
module MetricsSafetyRules {
  import opened Wrappers
  import opened Quorum
  import opened EpochChange
  import opened SafetyRules

  /** `endings[e]` ends epoch `e`; a read returns at most `limit` of them. */
  datatype Storage = Storage(endings: seq<SignedLedgerInfo>, latestVersion: nat, limit: nat)

  /** The epoch a version belongs to: the last version of an epoch still belongs to it. */
  function EpochOf(endings: seq<SignedLedgerInfo>, version: nat): (e: nat)
    ensures e <= |endings|
  {
    if endings == [] || version <= endings[0].info.version then 0
    else 1 + EpochOf(endings[1..], version)
  }

  function Page(s: Storage, from: nat): EpochChangeProof {
    var end := |s.endings|;
    if from >= end then EpochChangeProof([], false)
    else EpochChangeProof(s.endings[from..Min(from + s.limit, end)], end - from > s.limit)
  }

  /** Fails for a version beyond the ledger. */
  function RetrieveEpochChangeProof(s: Storage, version: nat): Result<EpochChangeProof, Error> {
    if version > s.latestVersion then Err(InternalError)
    else Ok(Page(s, EpochOf(s.endings, version)))
  }

  function HighestVersion(endings: seq<SignedLedgerInfo>): nat {
    if endings == [] then 0 else Max(endings[0].info.version, HighestVersion(endings[1..]))
  }

  lemma {:induction false} HighestVersionBounds(endings: seq<SignedLedgerInfo>, i: nat)
    requires i < |endings|
    ensures endings[i].info.version <= HighestVersion(endings)
  {
    if i > 0 { HighestVersionBounds(endings[1..], i - 1); }
  }

  /** Whatever the node and the storage, a waypoint reported as current comes from the storage. */
  lemma ProgressIsBounded(n: Node, s: Storage)
    requires RetrieveEpochChangeProof(s, n.waypoint.version).Ok?
    ensures var (n', r) := InitializeOp(n, RetrieveEpochChangeProof(s, n.waypoint.version).value);
            r.Err? && r.error.WaypointOutOfDate? && r.error.prev < r.error.curr ==>
              && r.error.prev == n.waypoint.version
              && n'.waypoint.version == r.error.curr <= HighestVersion(s.endings)
  {
    var proof := RetrieveEpochChangeProof(s, n.waypoint.version).value;
    var trust := TrustWaypoint(n.waypoint);
    VerifyResultIs(proof, trust);
    if VerifyResult(proof, trust).Ok? {
      var from := EpochOf(s.endings, n.waypoint.version);
      var last := from + |proof.infos| - 1;
      assert proof.infos[|proof.infos| - 1] == s.endings[last];
      HighestVersionBounds(s.endings, last);
    }
  }

  predicate Progress(r: Result<(), Error>) {
    r.Err? && r.error.WaypointOutOfDate? && r.error.prev < r.error.curr
  }

  /** Initialise page after page for as long as the waypoint moves. */
  function InitializeAll(n: Node, s: Storage): (Node, Result<(), Error>)
    decreases Max(HighestVersion(s.endings), n.waypoint.version) - n.waypoint.version
  {
    match RetrieveEpochChangeProof(s, n.waypoint.version)
    case Err(e) => (n, Err(e))
    case Ok(proof) =>
      ProgressIsBounded(n, s);
      var (n', r) := InitializeOp(n, proof);
      if Progress(r) then InitializeAll(n', s) else (n', r)
  }

  lemma {:induction false} NeverReportsProgress(n: Node, s: Storage)
    ensures !Progress(InitializeAll(n, s).1)
    decreases Max(HighestVersion(s.endings), n.waypoint.version) - n.waypoint.version
  {
    var proof := RetrieveEpochChangeProof(s, n.waypoint.version);
    if proof.Ok? {
      ProgressIsBounded(n, s);
      var (n', r) := InitializeOp(n, proof.value);
      if Progress(r) { NeverReportsProgress(n', s); }
    }
  }

  datatype Request =
    | VoteRequest(p: VoteProposal, voteTc: Option<TimeoutCert>)
    | TimeoutRequest(t: Timeout, timeoutTc: Option<TimeoutCert>)
    | OrderVoteRequest(block: Block, qc: QuorumCert)
    | ProposalRequest(proposer: Author, proposal: Block)
    | CommitRequest(commits: set<CommitVote>, cert: OrderedCert, executed: Block, result: Executed)

  /** What a signing call hands out. */
  datatype Issued = IssuedMessage(message: Signed) | IssuedCommit(commit: CommitVote)

  function Issue(out: (Node, Result<Signed, Error>)): (Node, Result<Issued, Error>) {
    (out.0, match out.1 case Ok(m) => Ok(IssuedMessage(m)) case Err(e) => Err(e))
  }

  function IssueCommit(n: Node, r: Result<CommitVote, Error>): (Node, Result<Issued, Error>) {
    (n, match r case Ok(v) => Ok(IssuedCommit(v)) case Err(e) => Err(e))
  }

  function RunOp(n: Node, sigs: set<Signed>, req: Request): (Node, Result<Issued, Error>) {
    match req
    case VoteRequest(p, tc) => Issue(VoteOp(n, sigs, p, tc))
    case TimeoutRequest(t, tc) => Issue(TimeoutOp(n, sigs, t, tc))
    case OrderVoteRequest(block, qc) => Issue(OrderVoteOp(n, sigs, block, qc))
    case ProposalRequest(proposer, block) => Issue(ProposeOp(n, sigs, proposer, block))
    case CommitRequest(commits, cert, block, result) =>
      IssueCommit(n, CommitVoteOp(n, sigs, commits, cert, block, result))
  }

  predicate Retriable(e: Error) {
    e.NotInitialized? || e.IncorrectEpoch? || e.WaypointOutOfDate?
  }

  class MetricsSafetyRules {
    const inner: SafetyRules
    const storage: Storage
    /** Outcomes of the inner signing calls, in order. */
    ghost var attempts: seq<Result<Issued, Error>>

    constructor (inner: SafetyRules, storage: Storage)
      ensures this.inner == inner && this.storage == storage && attempts == []
    {
      this.inner := inner;
      this.storage := storage;
      attempts := [];
    }

    method PerformInitialize() returns (r: Result<(), Error>)
      modifies inner
      ensures (inner.View(), r) == InitializeAll(old(inner.View()), storage)
      ensures !Progress(r)
    {
      ghost var start := inner.View();
      NeverReportsProgress(start, storage);
      var waypointVersion := inner.waypoint.version;
      while true
        invariant waypointVersion == inner.View().waypoint.version
        invariant InitializeAll(inner.View(), storage) == InitializeAll(start, storage)
        decreases Max(HighestVersion(storage.endings), waypointVersion) - waypointVersion
      {
        var proofs := RetrieveEpochChangeProof(storage, waypointVersion);
        if proofs.Err? {
          return Err(proofs.error);
        }
        ProgressIsBounded(inner.View(), storage);
        var result := inner.Initialize(proofs.value);
        if result.Err? && result.error.WaypointOutOfDate? && result.error.prev < result.error.curr {
          waypointVersion := result.error.curr;
        } else {
          return result;
        }
      }
    }

    method Attempt(sigs: set<Signed>, req: Request) returns (r: Result<Issued, Error>)
      modifies inner, this
      ensures (inner.View(), r) == RunOp(old(inner.View()), sigs, req)
      ensures attempts == old(attempts) + [r]
    {
      match req {
        case VoteRequest(p, tc) =>
          var vote := inner.ConstructAndSignVoteTwoChain(sigs, p, tc);
          r := if vote.Ok? then Ok(IssuedMessage(vote.value)) else Err(vote.error);
        case TimeoutRequest(t, tc) =>
          var timeout := inner.SignTimeoutWithQc(sigs, t, tc);
          r := if timeout.Ok? then Ok(IssuedMessage(timeout.value)) else Err(timeout.error);
        case OrderVoteRequest(block, qc) =>
          var order := inner.ConstructAndSignOrderVote(sigs, block, qc);
          r := if order.Ok? then Ok(IssuedMessage(order.value)) else Err(order.error);
        case ProposalRequest(proposer, block) =>
          var proposal := inner.SignProposal(sigs, proposer, block);
          r := if proposal.Ok? then Ok(IssuedMessage(proposal.value)) else Err(proposal.error);
        case CommitRequest(commits, cert, block, result) =>
          var commit := inner.SignCommitVote(sigs, commits, cert, block, result);
          r := if commit.Ok? then Ok(IssuedCommit(commit.value)) else Err(commit.error);
      }
      attempts := attempts + [r];
    }

    /** At most two attempts, the second only after a successful initialisation, and at most one signature. */
    method Retry(sigs: set<Signed>, req: Request) returns (r: Result<Issued, Error>)
      modifies inner, this
      ensures (inner.View(), r) == RetryOp(old(inner.View()), sigs, storage, req)
      ensures old(attempts) <= attempts && 1 <= |attempts| - |old(attempts)| <= 2
      ensures |attempts| == |old(attempts)| + 2 <==>
              && attempts[|old(attempts)|].Err?
              && (var e := attempts[|old(attempts)|].error;
                  e.NotInitialized? || e.IncorrectEpoch? || e.WaypointOutOfDate?)
              && InitializeAll(old(inner.View()), storage).1.Ok?
      ensures r.Ok? ==> attempts[|attempts| - 1] == r
    {
      ghost var before := inner.View();
      r := Attempt(sigs, req);
      if r.Err? && Retriable(r.error) {
        RefusalChangesNothing(before, sigs, req);
        var init := PerformInitialize();
        if init.Err? {
          return Err(init.error);
        }
        r := Attempt(sigs, req);
      }
    }
  }

  /** A refused request leaves the validator as it was. */
  lemma RefusalChangesNothing(n: Node, sigs: set<Signed>, req: Request)
    ensures RunOp(n, sigs, req).1.Err? ==> RunOp(n, sigs, req).0 == n
  {
  }

  function RetryOp(n: Node, sigs: set<Signed>, s: Storage, req: Request): (Node, Result<Issued, Error>) {
    var (n1, r1) := RunOp(n, sigs, req);
    if r1.Err? && Retriable(r1.error) then
      var (n2, init) := InitializeAll(n1, s);
      if init.Err? then (n2, Err(init.error)) else RunOp(n2, sigs, req)
    else (n1, r1)
  }

  // ---------------------------------------------------------------------------------------------
  // Paged initialisation against one unbounded initialisation
  // ---------------------------------------------------------------------------------------------

  function EndOf(s: Storage, e: nat): LedgerInfo
    requires e < |s.endings|
  {
    s.endings[e].info
  }

  predicate EndingOk(h: History, s: Storage, e: nat)
    requires e < |s.endings|
  {
    RealEnding(h, s.endings, e) && EndOf(s, e).version <= s.latestVersion
  }

  predicate EndsBefore(s: Storage, d: nat, e: nat)
    requires d < |s.endings| && e < |s.endings|
  {
    EndOf(s, d).version < EndOf(s, e).version
  }

  /** A ledger with one quorum-signed ending per epoch, at increasing versions. */
  ghost predicate StorageOk(h: History, s: Storage) {
    && s.limit >= 2
    && (forall e: nat {:trigger EndingOk(h, s, e)} :: e < |s.endings| ==> EndingOk(h, s, e))
    && (forall d: nat, e: nat {:trigger EndsBefore(s, d, e)} :: d < e < |s.endings| ==> EndsBefore(s, d, e))
  }

  /** The validator's waypoint is the ending of epoch `k` in this storage. */
  ghost predicate At(s: Storage, n: Node, k: nat) {
    k < |s.endings| && n.waypoint == WaypointOf(EndOf(s, k))
  }

  function ProofTo(s: Storage, k: nat, end: nat): EpochChangeProof
    requires k <= end <= |s.endings|
  {
    EpochChangeProof(s.endings[k..end], end < |s.endings|)
  }

  /** Where the pages stop: the first page that reaches the validator's own epoch, or the end. */
  function Stop(k: nat, current: nat, end: nat, limit: nat): (p: nat)
    requires k < end && limit >= 2
    ensures k < p <= end
    decreases end - k
  {
    var p := Min(k + limit, end);
    if current > p && p > k + 1 then Stop(p - 1, current, end, limit) else p
  }

  lemma {:induction false} EpochOfEnding(endings: seq<SignedLedgerInfo>, k: nat)
    requires k < |endings|
    requires forall d: nat, e: nat :: d < e < |endings| ==> endings[d].info.version < endings[e].info.version
    ensures EpochOf(endings, endings[k].info.version) == k
  {
    if k > 0 {
      assert endings[1..][k - 1] == endings[k];
      EpochOfEnding(endings[1..], k - 1);
    }
  }

  /** From a waypoint too, a stretch of endings is a chain of trust. */
  lemma WaypointChain(h: History, s: Storage, k: nat, end: nat)
    requires StorageOk(h, s) && k < end <= |s.endings|
    ensures Chained(TrustWaypoint(WaypointOf(EndOf(s, k))), s.endings[k..end])
  {
    var infos := s.endings[k..end];
    assert EndingOk(h, s, k);
    assert infos[0] == s.endings[k] && infos[1..] == s.endings[k + 1..end];
    forall e: nat | e < |s.endings| ensures RealEnding(h, s.endings, e) { assert EndingOk(h, s, e); }
    EndingsChain(h, s.endings, k + 1, end);
  }

  lemma ProofVerifies(h: History, s: Storage, w: Waypoint, k: nat, end: nat)
    requires StorageOk(h, s) && k < end <= |s.endings| && w == WaypointOf(EndOf(s, k))
    ensures VerifyResult(ProofTo(s, k, end), TrustWaypoint(w)) == Ok(EndOf(s, end - 1))
  {
    var trust, infos := TrustWaypoint(w), s.endings[k..end];
    assert infos[0] == s.endings[k] && infos[|infos| - 1] == s.endings[end - 1];
    assert k < end - 1 ==> EndsBefore(s, k, end - 1);
    WaypointChain(h, s, k, end);
    assert FreshFrom(trust, infos, 0) && infos[0..] == infos;
    VerifyResultIs(ProofTo(s, k, end), trust);
  }

  /** One initialisation with the endings up to `end` takes over the last of them. */
  lemma InitializeInstalls(h: History, s: Storage, n: Node, k: nat, end: nat)
    requires StorageOk(h, s) && At(s, n, k) && k < end <= |s.endings|
    ensures InitializeOp(n, ProofTo(s, k, end)) == Install(n, EndOf(s, end - 1))
  {
    ProofVerifies(h, s, n.waypoint, k, end);
  }

  lemma InstallMeans(n: Node, li: LedgerInfo)
    requires li.next.Some? && n.waypoint.version <= li.version
    requires n.waypoint.version == li.version ==> n.waypoint == WaypointOf(li)
    ensures var (n', r) := Install(n, li);
            && n'.waypoint == WaypointOf(li)
            && (n.data.epoch > li.next.value.epoch ==>
                  && n' == n.(waypoint := WaypointOf(li))
                  && r == Err(WaypointOutOfDate(n.waypoint.version, li.version, n.data.epoch, li.next.value.epoch)))
            && (n.data.epoch <= li.next.value.epoch ==>
                  && n'.data.epoch == li.next.value.epoch
                  && !(r.Err? && r.error.WaypointOutOfDate?))
  {
  }

  lemma InstallEnding(h: History, s: Storage, n: Node, k: nat, end: nat)
    requires StorageOk(h, s) && At(s, n, k) && k < end <= |s.endings|
    ensures var (n', r) := Install(n, EndOf(s, end - 1));
            && At(s, n', end - 1)
            && (n.data.epoch > end ==>
                  && n' == n.(waypoint := WaypointOf(EndOf(s, end - 1)))
                  && r == Err(WaypointOutOfDate(EndOf(s, k).version, EndOf(s, end - 1).version, n.data.epoch, end)))
            && (n.data.epoch <= end ==> n'.data.epoch == end && !(r.Err? && r.error.WaypointOutOfDate?))
    ensures k < end - 1 ==> EndOf(s, k).version < EndOf(s, end - 1).version
  {
    assert EndingOk(h, s, end - 1) && (k < end - 1 ==> EndsBefore(s, k, end - 1));
    InstallMeans(n, EndOf(s, end - 1));
  }

  lemma RetrievedPage(h: History, s: Storage, n: Node, k: nat)
    requires StorageOk(h, s) && At(s, n, k)
    ensures RetrieveEpochChangeProof(s, n.waypoint.version)
            == Ok(ProofTo(s, k, Min(k + s.limit, |s.endings|)))
  {
    forall d: nat, e: nat | d < e < |s.endings| ensures s.endings[d].info.version < s.endings[e].info.version {
      assert EndsBefore(s, d, e);
    }
    EpochOfEnding(s.endings, k);
    assert EndingOk(h, s, k);
  }

  lemma OneTurn(n: Node, s: Storage, proof: EpochChangeProof, out: (Node, Result<(), Error>))
    requires RetrieveEpochChangeProof(s, n.waypoint.version) == Ok(proof) && InitializeOp(n, proof) == out
    ensures InitializeAll(n, s) == if Progress(out.1) then InitializeAll(out.0, s) else out
  {
  }

  lemma TurnOf(h: History, s: Storage, n: Node, k: nat, p: nat, out: (Node, Result<(), Error>))
    requires StorageOk(h, s) && At(s, n, k) && p == Min(k + s.limit, |s.endings|) && out == Install(n, EndOf(s, p - 1))
    ensures InitializeAll(n, s) == if Progress(out.1) then InitializeAll(out.0, s) else out
  {
    RetrievedPage(h, s, n, k);
    InitializeInstalls(h, s, n, k, p);
    OneTurn(n, s, ProofTo(s, k, p), out);
  }

  lemma ProgressMeans(h: History, s: Storage, n: Node, k: nat, p: nat)
    requires StorageOk(h, s) && At(s, n, k) && k < p <= |s.endings|
    ensures Progress(Install(n, EndOf(s, p - 1)).1) <==> n.data.epoch > p && p > k + 1
  {
    InstallEnding(h, s, n, k, p);
  }

  /** One turn of the paging loop. */
  lemma InitializeAllStep(h: History, s: Storage, n: Node, k: nat, p: nat, out: (Node, Result<(), Error>))
    requires StorageOk(h, s) && At(s, n, k) && p == Min(k + s.limit, |s.endings|) && out == Install(n, EndOf(s, p - 1))
    ensures InitializeAll(n, s) == if n.data.epoch > p && p > k + 1 then InitializeAll(out.0, s) else out
  {
    ProgressMeans(h, s, n, k, p);
    TurnOf(h, s, n, k, p, out);
  }

  /** Going on from a page that is behind gives the same as starting from the first waypoint. */
  lemma InstallAfterPage(h: History, s: Storage, n: Node, k: nat, p: nat, end: nat)
    requires StorageOk(h, s) && At(s, n, k) && k < p <= end <= |s.endings| && n.data.epoch > p
    ensures var n' := n.(waypoint := WaypointOf(EndOf(s, p - 1)));
            && Install(n', EndOf(s, end - 1)).0 == Install(n, EndOf(s, end - 1)).0
            && (n.data.epoch <= end ==> Install(n', EndOf(s, end - 1)).1 == Install(n, EndOf(s, end - 1)).1)
  {
    assert EndingOk(h, s, end - 1);
    assert (p < end ==> EndsBefore(s, p - 1, end - 1)) && (k < end - 1 ==> EndsBefore(s, k, end - 1));
  }

  /** `out` is what installing the ending before `Stop` gives, up to the waypoints in a final refusal. */
  predicate InstalledTo(s: Storage, n: Node, k: nat, out: (Node, Result<(), Error>))
    requires k < |s.endings| && s.limit >= 2
  {
    var end := |s.endings|;
    var last := Install(n, EndOf(s, Stop(k, n.data.epoch, end, s.limit) - 1));
    && out.0 == last.0
    && (n.data.epoch <= end ==> out.1 == last.1)
    && (n.data.epoch > end ==>
          out.1 == Err(WaypointOutOfDate(EndOf(s, end - 1).version, EndOf(s, end - 1).version, n.data.epoch, end)))
  }

  lemma LastPage(h: History, s: Storage, n: Node, k: nat)
    requires StorageOk(h, s) && At(s, n, k)
    requires var p := Min(k + s.limit, |s.endings|); !(n.data.epoch > p && p > k + 1)
    ensures InstalledTo(s, n, k, Install(n, EndOf(s, Min(k + s.limit, |s.endings|) - 1)))
  {
    InstallEnding(h, s, n, k, Min(k + s.limit, |s.endings|));
  }

  lemma EarlierPage(h: History, s: Storage, n: Node, k: nat, p: nat, out: (Node, Result<(), Error>))
    requires StorageOk(h, s) && At(s, n, k)
    requires p == Min(k + s.limit, |s.endings|) && n.data.epoch > p && p > k + 1
    requires InstalledTo(s, n.(waypoint := WaypointOf(EndOf(s, p - 1))), p - 1, out)
    ensures InstalledTo(s, n, k, out)
  {
    StopCovers(k, n.data.epoch, |s.endings|, s.limit);
    InstallAfterPage(h, s, n, k, p, Stop(k, n.data.epoch, |s.endings|, s.limit));
  }

  /** The paging loop by page boundaries. */
  function ByPages(s: Storage, n: Node, k: nat): (Node, Result<(), Error>)
    requires k < |s.endings| && s.limit >= 2
    decreases |s.endings| - k
  {
    var p := Min(k + s.limit, |s.endings|);
    var last := Install(n, EndOf(s, p - 1));
    if n.data.epoch > p && p > k + 1 then ByPages(s, last.0, p - 1) else last
  }

  lemma PageBehind(h: History, s: Storage, n: Node, k: nat, p: nat)
    requires StorageOk(h, s) && At(s, n, k) && k < p <= |s.endings| && n.data.epoch > p
    ensures var n' := Install(n, EndOf(s, p - 1)).0;
            n' == n.(waypoint := WaypointOf(EndOf(s, p - 1))) && At(s, n', p - 1)
  {
    InstallEnding(h, s, n, k, p);
  }

  lemma ByPagesStep(s: Storage, n: Node, k: nat, p: nat, last: (Node, Result<(), Error>))
    requires k < |s.endings| && s.limit >= 2 && p == Min(k + s.limit, |s.endings|)
    requires last == Install(n, EndOf(s, p - 1))
    ensures ByPages(s, n, k) == if n.data.epoch > p && p > k + 1 then ByPages(s, last.0, p - 1) else last
  {
  }

  lemma {:induction false} LoopIsByPages(h: History, s: Storage, n: Node, k: nat, out: (Node, Result<(), Error>))
    requires StorageOk(h, s) && At(s, n, k) && out == ByPages(s, n, k)
    ensures InitializeAll(n, s) == out
    decreases |s.endings| - k
  {
    var p := Min(k + s.limit, |s.endings|);
    var last := Install(n, EndOf(s, p - 1));
    ByPagesStep(s, n, k, p, last);
    InitializeAllStep(h, s, n, k, p, last);
    if n.data.epoch > p && p > k + 1 {
      PageBehind(h, s, n, k, p);
      LoopIsByPages(h, s, last.0, p - 1, out);
    }
  }

  lemma {:induction false} PagesInstallAs(h: History, s: Storage, n: Node, k: nat)
    requires StorageOk(h, s) && At(s, n, k)
    ensures InstalledTo(s, n, k, ByPages(s, n, k))
    decreases |s.endings| - k
  {
    var p := Min(k + s.limit, |s.endings|);
    if n.data.epoch > p && p > k + 1 {
      PageBehind(h, s, n, k, p);
      PagesInstallAs(h, s, Install(n, EndOf(s, p - 1)).0, p - 1);
      EarlierPage(h, s, n, k, p, ByPages(s, n, k));
    } else {
      LastPage(h, s, n, k);
    }
  }

  lemma PagesInstall(h: History, s: Storage, n: Node, k: nat)
    requires StorageOk(h, s) && At(s, n, k)
    ensures InstalledTo(s, n, k, InitializeAll(n, s))
  {
    LoopIsByPages(h, s, n, k, ByPages(s, n, k));
    PagesInstallAs(h, s, n, k);
  }

  /**
   Paged initialisation leaves the validator exactly as one initialisation with all endings up to `Stop`
   would; the outcome is the same too, unless the validator's epoch is ahead of the whole storage, where
   the reported waypoints differ because the pages report the last step only.
   */
  lemma PagesRefineOneInitialization(h: History, s: Storage, n: Node, k: nat)
    requires StorageOk(h, s) && At(s, n, k)
    ensures var end := |s.endings|;
            var (n1, r1) := InitializeAll(n, s);
            var (n2, r2) := InitializeOp(n, ProofTo(s, k, Stop(k, n.data.epoch, end, s.limit)));
            && n1 == n2
            && (n.data.epoch <= end ==> r1 == r2)
            && (n.data.epoch > end ==>
                  r1 == Err(WaypointOutOfDate(EndOf(s, end - 1).version, EndOf(s, end - 1).version,
                                              n.data.epoch, end)))
  {
    PagesInstall(h, s, n, k);
    InitializeInstalls(h, s, n, k, Stop(k, n.data.epoch, |s.endings|, s.limit));
  }

  lemma {:induction false} StopCovers(k: nat, current: nat, end: nat, limit: nat)
    requires k < end && limit >= 2
    ensures current <= end ==> current <= Stop(k, current, end, limit)
    decreases end - k
  {
    var p := Min(k + limit, end);
    if current > p && p > k + 1 { StopCovers(p - 1, current, end, limit); }
  }

  /** The last page boundary below the newest epoch, counted from the waypoint. */
  function LastBoundary(k: nat, end: nat, limit: nat): nat
    requires k + limit < end && limit >= 2
  {
    k + 1 + (end - k - 2) / (limit - 1) * (limit - 1)
  }

  /** The condition for reaching the newest epoch, from values known before the call. */
  predicate ReachesEnd(k: nat, current: nat, end: nat, limit: nat)
    requires limit >= 2
  {
    k + limit < end ==> current > LastBoundary(k, end, limit)
  }

  lemma MultipleSize(d: int, step: int)
    requires step > 0
    ensures d >= 1 ==> d * step >= step
    ensures d <= -1 ==> d * step <= -step
  {
  }

  lemma QuotientIs(x: int, step: int, q: int, m: int)
    requires x == q * step + m && 0 <= m < step
    ensures x / step == q
  {
    var d := x / step - q;
    assert x == x / step * step + x % step;
    assert d * step == x / step * step - q * step;
    MultipleSize(d, step);
  }

  lemma MultipleBelow(x: int, step: int)
    requires 0 < step <= x
    ensures x / step * step == (x - step) / step * step + step
    ensures step <= x / step * step <= x
  {
    var q, m := (x - step) / step, (x - step) % step;
    assert (q + 1) * step == q * step + step;
    QuotientIs(x, step, q + 1, m);
    assert q * step >= 0;
  }

  lemma {:induction false} StopIsEnd(k: nat, current: nat, end: nat, limit: nat)
    requires k < end && limit >= 2
    ensures Stop(k, current, end, limit) == end <==> ReachesEnd(k, current, end, limit)
    decreases end - k
  {
    if k + limit < end {
      var step := limit - 1;
      MultipleBelow(end - k - 2, step);
      if current > k + limit {
        StopIsEnd(k + step, current, end, limit);
        if k + step + limit >= end {
          QuotientIs(end - k - 2 - step, step, 0, end - k - 2 - step);
        }
      }
    }
  }

  /**
   Paged initialisation reaches the same waypoint as one initialisation with every ending exactly when
   `ReachesEnd` holds; otherwise it stops short, in an older epoch.
   */
  lemma SameWaypointAsUnbounded(h: History, s: Storage, n: Node, k: nat)
    requires StorageOk(h, s) && At(s, n, k)
    ensures InitializeAll(n, s).0.waypoint == InitializeOp(n, ProofTo(s, k, |s.endings|)).0.waypoint
            <==> ReachesEnd(k, n.data.epoch, |s.endings|, s.limit)
    ensures n.data.epoch <= |s.endings| ==>
              InitializeAll(n, s).0.data.epoch == Stop(k, n.data.epoch, |s.endings|, s.limit)
  {
    PagesInstall(h, s, n, k);
    InitializeInstalls(h, s, n, k, |s.endings|);
    InstalledMeans(h, s, n, k, InitializeAll(n, s), InitializeOp(n, ProofTo(s, k, |s.endings|)));
  }

  lemma InstalledMeans(h: History, s: Storage, n: Node, k: nat, out: (Node, Result<(), Error>),
                       once: (Node, Result<(), Error>))
    requires StorageOk(h, s) && At(s, n, k) && InstalledTo(s, n, k, out)
    requires once == Install(n, EndOf(s, |s.endings| - 1))
    ensures out.0.waypoint == once.0.waypoint
            <==> ReachesEnd(k, n.data.epoch, |s.endings|, s.limit)
    ensures n.data.epoch <= |s.endings| ==>
              out.0.data.epoch == Stop(k, n.data.epoch, |s.endings|, s.limit)
  {
    var end := |s.endings|;
    var stop := Stop(k, n.data.epoch, end, s.limit);
    InstallEnding(h, s, n, k, stop);
    InstallEnding(h, s, n, k, end);
    StopIsEnd(k, n.data.epoch, end, s.limit);
    StopCovers(k, n.data.epoch, end, s.limit);
    assert stop < end ==> EndsBefore(s, stop - 1, end - 1);
  }

  /** The epoch that is compared with the validator's; signing an executed block compares none. */
  function RequestEpoch(req: Request): Option<nat> {
    match req
    case VoteRequest(p, _) => Some(p.block.epoch)
    case TimeoutRequest(t, _) => Some(t.epoch)
    case OrderVoteRequest(block, _) => Some(block.epoch)
    case ProposalRequest(_, block) => Some(block.epoch)
    case CommitRequest(_, _, _, _) => None
  }

  predicate AsksForInitialisation(e: Error) {
    match e
    case NotInitialized => true
    case IncorrectEpoch(_, _) => true
    case WaypointOutOfDate(_, _, _, _) => true
    case _ => false
  }

  /** A request is asked again, after initialising, exactly after one of three refusals; else the outcome is final. */
  lemma RetriesExactly(n: Node, sigs: set<Signed>, s: Storage, req: Request, asked: (Node, Result<Issued, Error>),
                       init: (Node, Result<(), Error>))
    requires asked == RunOp(n, sigs, req) && init == InitializeAll(n, s)
    ensures RetryOp(n, sigs, s, req)
            == if asked.1.Ok? || !AsksForInitialisation(asked.1.error) then asked
               else if init.1.Ok? then RunOp(init.0, sigs, req)
               else (init.0, Err(init.1.error))
  {
    RefusalChangesNothing(n, sigs, req);
  }

  lemma WithoutSigner(n: Node, sigs: set<Signed>, req: Request)
    requires n.signer.None?
    ensures RunOp(n, sigs, req) == (n, Err(NotInitialized))
  {
  }

  /** A restart keeps what was persisted and nothing else, and until it is initialised the validator signs nothing. */
  lemma RestartedSignsNothing(n: Node, sigs: set<Signed>, req: Request)
    ensures Restart(n) == Node(n.author, n.data, n.waypoint, n.keys, None, None, n.skipSigVerify)
    ensures RunOp(Restart(n), sigs, req) == (Restart(n), Err(NotInitialized))
  {
    WithoutSigner(Restart(n), sigs, req);
  }

  /** A validator without its signer, as after a restart, is initialised and asked again, whatever it is asked. */
  lemma RestartedIsInitialised(n: Node, sigs: set<Signed>, s: Storage, req: Request, init: (Node, Result<(), Error>))
    requires n.signer.None? && init == InitializeAll(n, s)
    ensures RetryOp(n, sigs, s, req)
            == if init.1.Ok? then RunOp(init.0, sigs, req) else (init.0, Err(init.1.error))
  {
    WithoutSigner(n, sigs, req);
    RetriesExactly(n, sigs, s, req, RunOp(n, sigs, req), init);
  }

  lemma ReinstallsSame(n: Node, li: LedgerInfo, key: PublicKey)
    requires li.next.Some? && n.epochState == li.next && n.data.epoch == li.next.value.epoch
    requires n.signer == Some(key) && key in n.keys && li.next.value.verifier.KeyOf(n.author) == Some(key)
    requires n.waypoint.version < li.version || n.waypoint == WaypointOf(li)
    ensures Install(Restart(n), li) == (n.(waypoint := WaypointOf(li)), Ok(()))
  {
  }

  lemma NewestIsInstalled(h: History, s: Storage, n: Node, k: nat, li: LedgerInfo)
    requires StorageOk(h, s) && At(s, n, k) && n.data.epoch == |s.endings| && li == EndOf(s, |s.endings| - 1)
    ensures InitializeAll(n, s) == Install(n, li)
  {
    PagesInstall(h, s, n, k);
    StopCovers(k, |s.endings|, |s.endings|, s.limit);
  }

  lemma NewestEnding(h: History, s: Storage, n: Node, k: nat, li: LedgerInfo)
    requires StorageOk(h, s) && At(s, n, k) && li == EndOf(s, |s.endings| - 1)
    ensures li.next == Some(StateOf(h, |s.endings|))
    ensures n.waypoint.version < li.version || n.waypoint == WaypointOf(li)
  {
    var end := |s.endings|;
    assert EndingOk(h, s, end - 1) && (k < end - 1 ==> EndsBefore(s, k, end - 1));
  }

  lemma RestartedInstalls(h: History, s: Storage, n: Node, k: nat, key: PublicKey)
    requires StorageOk(h, s) && At(s, n, k) && n.data.epoch == |s.endings|
    requires n.epochState == Some(StateOf(h, |s.endings|)) && n.signer == Some(key)
    requires key in n.keys && h(|s.endings|).KeyOf(n.author) == Some(key)
    ensures InitializeAll(Restart(n), s) == (n.(waypoint := WaypointOf(EndOf(s, |s.endings| - 1))), Ok(()))
  {
    var li := EndOf(s, |s.endings| - 1);
    NewestEnding(h, s, n, k, li);
    ReinstallsSame(n, li, key);
    NewestIsInstalled(h, s, Restart(n), k, li);
  }

  /**
   A restart goes unnoticed: a validator of the newest epoch that restarts answers every request as it would have
   without restarting, but for the waypoint, which is then the newest.
   */
  lemma RestartIsTransparent(h: History, s: Storage, n: Node, k: nat, key: PublicKey, sigs: set<Signed>, req: Request)
    requires StorageOk(h, s) && At(s, n, k) && n.data.epoch == |s.endings|
    requires n.epochState == Some(StateOf(h, |s.endings|)) && n.signer == Some(key)
    requires key in n.keys && h(|s.endings|).KeyOf(n.author) == Some(key)
    ensures RetryOp(Restart(n), sigs, s, req)
            == RunOp(n.(waypoint := WaypointOf(EndOf(s, |s.endings| - 1))), sigs, req)
  {
    RestartedInstalls(h, s, n, k, key);
    RestartedIsInitialised(Restart(n), sigs, s, req, InitializeAll(Restart(n), s));
  }

  lemma EpochRefusal(n: Node, sigs: set<Signed>, req: Request)
    requires n.signer.Some? && (req.ProposalRequest? ==> req.proposer == n.author && req.proposal.Child?)
    ensures RunOp(n, sigs, req).1.Err? && RunOp(n, sigs, req).1.error.IncorrectEpoch?
            <==> RequestEpoch(req).Some? && RequestEpoch(req).value != n.data.epoch
  {
  }

  lemma InstalledIsReady(n: Node, li: LedgerInfo)
    requires Install(n, li).1.Ok?
    ensures Install(n, li).0.signer.Some? && Install(n, li).0.author == n.author
  {
  }

  /**
   A lagging validator asked to sign in the newest epoch: the retry gets past the epoch check exactly when
   paged initialisation reaches that epoch.
   */
  lemma RetryHealsLag(h: History, s: Storage, n: Node, k: nat, sigs: set<Signed>, req: Request)
    requires StorageOk(h, s) && At(s, n, k)
    requires n.signer.Some? && (req.ProposalRequest? ==> req.proposer == n.author && req.proposal.Child?)
    requires RequestEpoch(req) == Some(|s.endings|) && |s.endings| > n.data.epoch
    requires InitializeAll(n, s).1.Ok?
    ensures var r := RetryOp(n, sigs, s, req).1;
            r.Err? && r.error.IncorrectEpoch? <==> !ReachesEnd(k, n.data.epoch, |s.endings|, s.limit)
  {
    EpochRefusal(n, sigs, req);
    RefusalChangesNothing(n, sigs, req);
    PagesInstall(h, s, n, k);
    RetriedAfter(h, s, n, k, sigs, req, InitializeAll(n, s));
  }

  lemma RetriedAfter(h: History, s: Storage, n: Node, k: nat, sigs: set<Signed>, req: Request,
                     out: (Node, Result<(), Error>))
    requires StorageOk(h, s) && At(s, n, k) && InstalledTo(s, n, k, out) && out.1.Ok?
    requires req.ProposalRequest? ==> req.proposer == n.author && req.proposal.Child?
    requires RequestEpoch(req) == Some(|s.endings|) && |s.endings| > n.data.epoch
    ensures var r := RunOp(out.0, sigs, req).1;
            r.Err? && r.error.IncorrectEpoch? <==> !ReachesEnd(k, n.data.epoch, |s.endings|, s.limit)
  {
    InstalledMeans(h, s, n, k, out, Install(n, EndOf(s, |s.endings| - 1)));
    InstalledIsReady(n, EndOf(s, Stop(k, n.data.epoch, |s.endings|, s.limit) - 1));
    StopIsEnd(k, n.data.epoch, |s.endings|, s.limit);
    EpochRefusal(out.0, sigs, req);
  }

  // ---------------------------------------------------------------------------------------------
  // The failing case
  // ---------------------------------------------------------------------------------------------

  /** Epoch `e` ends at version `e + 1`. */
  function EndingAt(e: nat): SignedLedgerInfo {
    SignedLedgerInfo(LedgerInfo(e, e + 1, 0, Some(StateOf(AloneHistory(), e + 1))), {0})
  }

  /** 250 epochs, read in pages of 100. */
  function LongStorage(): (s: Storage)
    ensures |s.endings| == 250 && s.limit == MAX_NUM_EPOCH_ENDING_LEDGER_INFO
    ensures forall e :: 0 <= e < 250 ==> s.endings[e] == EndingAt(e)
  {
    Storage(seq(250, e requires 0 <= e => EndingAt(e)), 250, MAX_NUM_EPOCH_ENDING_LEDGER_INFO)
  }

  /** The validator as it was in epoch 1, with the end of epoch 0 as its waypoint. */
  function Sleeper(): Node {
    Node(0, FreshData(1), WaypointOf(EndingAt(0).info), {0}, Some(0), Some(StateOf(AloneHistory(), 1)), false)
  }

  lemma LongStorageIsOk()
    ensures StorageOk(AloneHistory(), LongStorage())
  {
    AloneIsQuorum();
    var s := LongStorage();
    forall e: nat | e < |s.endings| ensures EndingOk(AloneHistory(), s, e) {
      assert s.endings[e] == EndingAt(e);
    }
    forall d: nat, e: nat | d < e < |s.endings| ensures EndsBefore(s, d, e) {
      assert s.endings[d] == EndingAt(d) && s.endings[e] == EndingAt(e);
    }
  }

  /** A validator that slept through 249 epochs stops after the first page, in epoch 100, with another waypoint. */
  lemma LaggingValidatorStopsEarly()
    ensures StorageOk(AloneHistory(), LongStorage()) && At(LongStorage(), Sleeper(), 0)
    ensures InitializeAll(Sleeper(), LongStorage()).0.data.epoch == 100
    ensures InitializeAll(Sleeper(), LongStorage()).0.waypoint
            != InitializeOp(Sleeper(), ProofTo(LongStorage(), 0, 250)).0.waypoint
  {
    LongStorageIsOk();
    assert LongStorage().endings[0] == EndingAt(0);
    assert 248 / 99 * 99 == 198;
    SameWaypointAsUnbounded(AloneHistory(), LongStorage(), Sleeper(), 0);
  }
}
