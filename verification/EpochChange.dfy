/**
 Epoch-ending ledger infos and the proofs built from them
 (types/src/epoch_change.rs, types/src/epoch_state.rs, types/src/waypoint.rs).

 A signature is represented by its author: a ledger info carries the set of validators that signed it.
 The hash inside a waypoint is represented by the ledger info it commits to.
 */
module EpochChange {
  import opened Wrappers
  import opened Quorum

  /** How many epoch-ending ledger infos the database returns at a time. */
  const MAX_NUM_EPOCH_ENDING_LEDGER_INFO: nat := 100

  datatype EpochState = EpochState(epoch: nat, verifier: Verifier)

  /** `digest` stands for the hashed fields that no rule inspects: root hash and timestamp. */
  datatype LedgerInfo = LedgerInfo(epoch: nat, version: nat, digest: nat, next: Option<EpochState>)

  datatype SignedLedgerInfo = SignedLedgerInfo(info: LedgerInfo, signers: set<Author>)

  datatype Waypoint = Waypoint(version: nat, value: LedgerInfo)

  datatype EpochChangeProof = EpochChangeProof(infos: seq<SignedLedgerInfo>, more: bool)

  /** What a client already trusts: a validator set, or a waypoint at start-up. */
  datatype Trust = TrustEpoch(state: EpochState) | TrustWaypoint(waypoint: Waypoint) {
    predicate Accepts(li: SignedLedgerInfo) {
      match this
      case TrustEpoch(s) => s.epoch == li.info.epoch && s.verifier.IsQuorum(li.signers)
      case TrustWaypoint(w) => li.info.version == w.version && li.info == w.value
    }

    predicate Stale(li: LedgerInfo) {
      match this
      case TrustEpoch(s) => li.epoch < s.epoch
      case TrustWaypoint(w) => li.version < w.version
    }
  }

  datatype ProofError = EmptyProof | StaleProof | Rejected | NoValidatorSet

  function WaypointOf(li: LedgerInfo): Waypoint {
    Waypoint(li.version, li)
  }

  /** The first/lowest epoch of the proof. */
  function ProofEpoch(proof: EpochChangeProof): Result<nat, ProofError> {
    if proof.infos == [] then Err(EmptyProof) else Ok(proof.infos[0].info.epoch)
  }

  // ---------------------------------------------------------------------------------------------
  // What a verified proof means
  // ---------------------------------------------------------------------------------------------

  /** Every ledger info is accepted by the validator set that the one before it installs. */
  ghost predicate Chained(trust: Trust, infos: seq<SignedLedgerInfo>)
    decreases |infos|
  {
    infos == [] ||
    (trust.Accepts(infos[0])
     && infos[0].info.next.Some?
     && Chained(TrustEpoch(infos[0].info.next.value), infos[1..]))
  }

  /** `from` is where the stale prefix ends. */
  ghost predicate FreshFrom(trust: Trust, infos: seq<SignedLedgerInfo>, from: nat) {
    && from < |infos|
    && !trust.Stale(infos[from].info)
    && forall i :: 0 <= i < from ==> trust.Stale(infos[i].info)
  }

  /** A proof is valid when its last ledger info is not stale and everything after the stale prefix chains. */
  ghost predicate Valid(trust: Trust, infos: seq<SignedLedgerInfo>) {
    && infos != []
    && !trust.Stale(infos[|infos| - 1].info)
    && exists from: nat :: FreshFrom(trust, infos, from) && Chained(trust, infos[from..])
  }

  lemma FreshFromUnique(trust: Trust, infos: seq<SignedLedgerInfo>, a: nat, b: nat)
    requires FreshFrom(trust, infos, a) && FreshFrom(trust, infos, b)
    ensures a == b
  {
  }

  /** Verification as the code runs it: skip the stale prefix, then hand trust from set to set. */
  method VerifyProof(proof: EpochChangeProof, trust: Trust) returns (r: Result<LedgerInfo, ProofError>)
    ensures r.Ok? <==> Valid(trust, proof.infos)
    ensures r.Ok? ==> r.value == proof.infos[|proof.infos| - 1].info && r.value.next.Some?
    ensures proof.infos == [] <==> r == Err(EmptyProof)
    ensures r == VerifyResult(proof, trust)
  {
    var infos := proof.infos;
    VerifyResultIs(proof, trust);
    if infos == [] {
      return Err(EmptyProof);
    }
    if trust.Stale(infos[|infos| - 1].info) {
      return Err(StaleProof);
    }
    var start := 0;
    while trust.Stale(infos[start].info)
      invariant 0 <= start < |infos|
      invariant forall i :: 0 <= i < start ==> trust.Stale(infos[i].info)
      decreases |infos| - start
    {
      start := start + 1;
    }
    FirstFreshIs(trust, infos, start);
    var chained := VerifyChain(infos[start..], trust);
    if chained.Err? {
      NotEmptyProof(trust, infos[start..]);
      return Err(chained.error);
    }
    ChainEnds(trust, infos[start..]);
    return Ok(infos[|infos| - 1].info);
  }

  lemma {:induction false} ChainEnds(trust: Trust, infos: seq<SignedLedgerInfo>)
    requires ChainResult(trust, infos).Ok? && infos != []
    ensures infos[|infos| - 1].info.next.Some?
    decreases |infos|
  {
    if |infos| > 1 { ChainEnds(TrustEpoch(infos[0].info.next.value), infos[1..]); }
  }

  method VerifyChain(infos: seq<SignedLedgerInfo>, trust: Trust) returns (r: Result<(), ProofError>)
    ensures r == ChainResult(trust, infos)
  {
    var verifierRef := trust;
    for i := 0 to |infos|
      invariant ChainResult(trust, infos) == ChainResult(verifierRef, infos[i..])
    {
      assert infos[i..][0] == infos[i] && infos[i..][1..] == infos[i + 1..];
      if !verifierRef.Accepts(infos[i]) {
        return Err(Rejected);
      }
      if infos[i].info.next.None? {
        return Err(NoValidatorSet);
      }
      verifierRef := TrustEpoch(infos[i].info.next.value);
    }
    return Ok(());
  }

  lemma {:induction false} NotEmptyProof(trust: Trust, infos: seq<SignedLedgerInfo>)
    ensures ChainResult(trust, infos) != Err(EmptyProof)
    decreases |infos|
  {
    if infos != [] && trust.Accepts(infos[0]) && infos[0].info.next.Some? {
      NotEmptyProof(TrustEpoch(infos[0].info.next.value), infos[1..]);
    }
  }

  lemma NotValid(trust: Trust, infos: seq<SignedLedgerInfo>, from: nat)
    requires FreshFrom(trust, infos, from) && !Chained(trust, infos[from..])
    ensures !Valid(trust, infos)
  {
    forall k: nat | FreshFrom(trust, infos, k) ensures k == from {
      FreshFromUnique(trust, infos, k, from);
    }
  }

  // ---------------------------------------------------------------------------------------------
  // The verification outcome as a value, for the state machines that cannot call a method
  // ---------------------------------------------------------------------------------------------

  function FirstFresh(trust: Trust, infos: seq<SignedLedgerInfo>): (k: nat)
    ensures k <= |infos|
    decreases |infos|
  {
    if infos == [] || !trust.Stale(infos[0].info) then 0 else 1 + FirstFresh(trust, infos[1..])
  }

  function ChainResult(trust: Trust, infos: seq<SignedLedgerInfo>): Result<(), ProofError>
    decreases |infos|
  {
    if infos == [] then Ok(())
    else if !trust.Accepts(infos[0]) then Err(Rejected)
    else if infos[0].info.next.None? then Err(NoValidatorSet)
    else ChainResult(TrustEpoch(infos[0].info.next.value), infos[1..])
  }

  function VerifyResult(proof: EpochChangeProof, trust: Trust): Result<LedgerInfo, ProofError> {
    var infos := proof.infos;
    if infos == [] then Err(EmptyProof)
    else if trust.Stale(infos[|infos| - 1].info) then Err(StaleProof)
    else
      match ChainResult(trust, infos[FirstFresh(trust, infos)..])
      case Ok(_) => Ok(infos[|infos| - 1].info)
      case Err(e) => Err(e)
  }

  lemma {:induction false} FirstFreshIs(trust: Trust, infos: seq<SignedLedgerInfo>, from: nat)
    requires FreshFrom(trust, infos, from)
    ensures FirstFresh(trust, infos) == from
    decreases from
  {
    if from > 0 {
      assert trust.Stale(infos[0].info);
      FirstFreshIs(trust, infos[1..], from - 1);
    }
  }

  lemma {:induction false} ChainResultIs(trust: Trust, infos: seq<SignedLedgerInfo>)
    ensures ChainResult(trust, infos).Ok? <==> Chained(trust, infos)
    decreases |infos|
  {
    if infos != [] && trust.Accepts(infos[0]) && infos[0].info.next.Some? {
      ChainResultIs(TrustEpoch(infos[0].info.next.value), infos[1..]);
    }
  }

  lemma {:induction false} FirstFreshExists(trust: Trust, infos: seq<SignedLedgerInfo>)
    requires infos != [] && !trust.Stale(infos[|infos| - 1].info)
    ensures FreshFrom(trust, infos, FirstFresh(trust, infos))
    decreases |infos|
  {
    if trust.Stale(infos[0].info) {
      FirstFreshExists(trust, infos[1..]);
      var k := FirstFresh(trust, infos[1..]);
      assert infos[1..][k] == infos[k + 1];
      forall i | 0 <= i < k + 1 ensures trust.Stale(infos[i].info) {
        if i > 0 { assert infos[1..][i - 1] == infos[i]; }
      }
    }
  }

  lemma VerifyResultIs(proof: EpochChangeProof, trust: Trust)
    ensures VerifyResult(proof, trust).Ok? <==> Valid(trust, proof.infos)
    ensures VerifyResult(proof, trust).Ok? ==>
              VerifyResult(proof, trust).value == proof.infos[|proof.infos| - 1].info
  {
    var infos := proof.infos;
    if infos != [] && !trust.Stale(infos[|infos| - 1].info) {
      var from := FirstFresh(trust, infos);
      FirstFreshExists(trust, infos);
      ChainResultIs(trust, infos[from..]);
      if !Chained(trust, infos[from..]) { NotValid(trust, infos, from); }
    }
  }

  // ---------------------------------------------------------------------------------------------
  // Agreement: with honest quorums in every epoch, a verified proof leads to the one real epoch
  // ---------------------------------------------------------------------------------------------

  /** The validator set of every epoch, as the chain decided it. */
  type History = nat -> Verifier

  function StateOf(h: History, epoch: nat): EpochState {
    EpochState(epoch, h(epoch))
  }

  /** Agreement inside one epoch: a quorum of its validators signs no ending but the real one. */
  predicate Genuine(h: History, li: SignedLedgerInfo) {
    h(li.info.epoch).IsQuorum(li.signers) && li.info.next.Some? ==>
      li.info.next.value == StateOf(h, li.info.epoch + 1)
  }

  predicate GenuineProof(h: History, proof: EpochChangeProof) {
    forall i :: 0 <= i < |proof.infos| ==> Genuine(h, proof.infos[i])
  }

  predicate GenuineWaypoint(h: History, w: Waypoint) {
    w.value.version == w.version
    && (w.value.next.Some? ==> w.value.next.value == StateOf(h, w.value.epoch + 1))
  }

  predicate GenuineTrust(h: History, trust: Trust) {
    match trust
    case TrustEpoch(s) => s == StateOf(h, s.epoch)
    case TrustWaypoint(w) => GenuineWaypoint(h, w)
  }

  /** `endings[e]` is the real end of epoch `e`, signed by a quorum of it. */
  predicate RealEnding(h: History, endings: seq<SignedLedgerInfo>, e: nat)
    requires e < |endings|
  {
    && endings[e].info.epoch == e
    && endings[e].info.next == Some(StateOf(h, e + 1))
    && h(e).IsQuorum(endings[e].signers)
  }

  /** A store of the real endings of all epochs so far. */
  ghost predicate RealEndings(h: History, endings: seq<SignedLedgerInfo>) {
    forall e: nat {:trigger RealEnding(h, endings, e)} :: e < |endings| ==> RealEnding(h, endings, e)
  }

  /** Any stretch of real endings is a chain of trust from its first validator set. */
  lemma {:induction false} EndingsChain(h: History, endings: seq<SignedLedgerInfo>, start: nat, stop: nat)
    requires RealEndings(h, endings) && start <= stop <= |endings|
    ensures Chained(TrustEpoch(StateOf(h, start)), endings[start..stop])
    decreases stop - start
  {
    if start < stop {
      EndingsChain(h, endings, start + 1, stop);
      assert RealEnding(h, endings, start);
      var infos := endings[start..stop];
      assert infos[0] == endings[start] && infos[1..] == endings[start + 1..stop];
    }
  }

  /** Along a chain the epochs are consecutive and every installed validator set is the real one. */
  lemma {:induction false} ChainAgreement(h: History, trust: Trust, infos: seq<SignedLedgerInfo>)
    requires GenuineTrust(h, trust) && Chained(trust, infos) && infos != []
    requires forall i :: 0 <= i < |infos| ==> Genuine(h, infos[i])
    ensures forall i :: 0 <= i < |infos| ==>
              && infos[i].info.epoch == infos[0].info.epoch + i
              && infos[i].info.next == Some(StateOf(h, infos[0].info.epoch + i + 1))
    ensures trust.TrustEpoch? ==> infos[0].info.epoch == trust.state.epoch
    decreases |infos|
  {
    assert infos[0].info.next == Some(StateOf(h, infos[0].info.epoch + 1));
    if |infos| > 1 {
      ChainAgreement(h, TrustEpoch(infos[0].info.next.value), infos[1..]);
      forall i | 0 <= i < |infos|
        ensures infos[i].info.epoch == infos[0].info.epoch + i
        ensures infos[i].info.next == Some(StateOf(h, infos[0].info.epoch + i + 1))
      {
        if i > 0 { assert infos[1..][i - 1] == infos[i]; }
      }
    }
  }

  lemma ValidProofAgrees(h: History, trust: Trust, infos: seq<SignedLedgerInfo>)
    requires GenuineTrust(h, trust) && Valid(trust, infos)
    requires forall i :: 0 <= i < |infos| ==> Genuine(h, infos[i])
    ensures var li := infos[|infos| - 1].info;
            li.next == Some(StateOf(h, li.epoch + 1)) && !trust.Stale(li)
  {
    var from: nat :| FreshFrom(trust, infos, from) && Chained(trust, infos[from..]);
    var suffix := infos[from..];
    assert forall i :: 0 <= i < |suffix| ==> Genuine(h, suffix[i]);
    ChainAgreement(h, trust, suffix);
    assert suffix[|suffix| - 1] == infos[|infos| - 1];
  }

  /** A verified proof ends in the real validator set of the epoch after its last one. */
  lemma VerifiedProofAgrees(h: History, trust: Trust, proof: EpochChangeProof)
    requires GenuineTrust(h, trust) && GenuineProof(h, proof)
    requires VerifyResult(proof, trust).Ok?
    ensures var li := VerifyResult(proof, trust).value;
            && li.next == Some(StateOf(h, li.epoch + 1))
            && !trust.Stale(li)
  {
    VerifyResultIs(proof, trust);
    ValidProofAgrees(h, trust, proof.infos);
  }

  /** One validator for ever. */
  function AloneHistory(): History {
    e => Alone()
  }
}
