/**
 What the epoch manager does with everything it receives: which events are taken, where a verified one arrives, what is
 answered to other epochs, and what every field is after a new epoch has begun.
 */
module EpochDelivery {
  import opened Wrappers
  import opened Quorum
  import opened EpochChange
  import opened EpochManager
  import opened EpochIsolation

  // ---------------------------------------------------------------------------------------------
  // Where verified events go
  // ---------------------------------------------------------------------------------------------

  /** The queue for each kind of event, and the sender captured for it. */
  function Route(t: Task): (Queue, Option<Channel>) {
    match t.event.kind
    case ProposalMsg => (BufferedQueue, t.bufferedTx)
    case OptProposalMsg => (BufferedQueue, t.bufferedTx)
    case VoteMsg => (RoundManagerQueue, t.roundManagerTx)
    case OrderVoteMsg => (RoundManagerQueue, t.roundManagerTx)
    case SyncInfo => (RoundManagerQueue, t.roundManagerTx)
    case RoundTimeoutMsg => (RoundManagerQueue, t.roundManagerTx)
    case BatchMsg => (QuorumStoreQueue, t.quorumStoreTx)
    case SignedBatchInfo => (QuorumStoreQueue, t.quorumStoreTx)
    case ProofOfStoreMsg => (QuorumStoreQueue, t.quorumStoreTx)
  }

  function Arrival(t: Task): seq<Push> {
    var (queue, tx) := Route(t);
    if tx.Some? then [EventPush(queue, tx.value, t.event, t.state)] else []
  }

  /**
   A task that ends is gone. If its event is valid it is pushed once, into the sender captured for its kind, or nowhere
   if there was none, and a proposal becomes pending; if not, nothing happens. Nothing else changes.
   */
  lemma FinishedTask(w: World, i: nat, valid: bool)
    requires i < |w.tasks|
    ensures var t := w.tasks[i];
            Finish(w, i, valid)
            == World(w.m, w.acts,
                     if valid && t.event.kind.ProposalMsg? then w.pendingBlocks + {t.event} else w.pendingBlocks,
                     w.tasks[..i] + w.tasks[i + 1..],
                     if valid then w.pushes + Arrival(t) else w.pushes,
                     w.outbox)
  {
  }

  /** When the event's epoch had a sender for its kind, and from which epoch. */
  ghost predicate ArrivesIn(acts: seq<Act>, t: Task, arrived: seq<Push>) {
    match Route(t).0
    case QuorumStoreQueue => arrived == [EventPush(QuorumStoreQueue, Channel(t.state), t.event, t.state)]
    case RoundManagerQueue =>
      if Began(acts, DagBootstrapper, t.state.epoch) then arrived == []
      else arrived == [EventPush(RoundManagerQueue, Channel(t.state), t.event, t.state)]
    case BufferedQueue =>
      if !BeganBy(acts, RoundManager, t.state.epoch) then arrived == []
      else
        exists tx: Channel ::
          && arrived == [EventPush(BufferedQueue, tx, t.event, t.state)]
          && (tx == Channel(t.state) <==> Began(acts, RoundManager, t.state.epoch))
  }

  lemma TaskArrives(acts: seq<Act>, current: nat, t: Task)
    requires TaskOk(acts, current, t)
    ensures ArrivesIn(acts, t, Arrival(t))
  {
  }

  /**
   In every run, a valid event whose verification ends arrives exactly once, at the sender of its own epoch: at the
   quorum store always, at the round manager unless its epoch ran a DAG, and as a proposal once a round manager has ever
   begun. An event that is not valid arrives nowhere.
   */
  lemma ValidEventsArriveOnce(env: Env, ws: seq<World>, steps: seq<Step>, k: nat)
    requires Run(env, ws, steps) && k < |steps| && steps[k].TaskEnds?
    ensures steps[k].i < |ws[k].tasks|
    ensures var t := ws[k].tasks[steps[k].i];
            if env.valid(t.event, t.state) then
              exists arrived :: ws[k + 1].pushes == ws[k].pushes + arrived && ArrivesIn(ws[k].acts, t, arrived)
            else ws[k + 1].pushes == ws[k].pushes
  {
    assert Next(env, ws[k], steps[k], ws[k + 1]);
    var i := steps[k].i;
    var t := ws[k].tasks[i];
    RunKeepsInv(env, ws, steps, k);
    assert TaskOk(ws[k].acts, ws[k].m.epochState.value.epoch, t);
    TaskArrives(ws[k].acts, ws[k].m.epochState.value.epoch, t);
    FinishedTask(ws[k], i, env.valid(t.event, t.state));
  }

  // ---------------------------------------------------------------------------------------------
  // What is done with a message
  // ---------------------------------------------------------------------------------------------

  predicate ForQuorumStore(kind: Kind) {
    match kind
    case BatchMsg => true
    case SignedBatchInfo => true
    case ProofOfStoreMsg => true
    case _ => false
  }

  /** The task for an event: it captures the epoch state and the senders of this moment. */
  function Captures(m: Manager, e: Event): Task
    requires m.epochState.Some?
  {
    Task(e, m.epochState.value, m.quorumStoreMsgTx, m.roundManagerTx, m.bufferedProposalTx)
  }

  /** An event of the current epoch is taken for verification, once, unless its kind is switched off. */
  lemma CurrentEvent(cfg: Settings, w: World, db: EpochDb, peer: Author, e: Event, r: Reconfig)
    requires w.m.epochState.Some? && e.epoch == Some(w.m.epochState.value.epoch)
    ensures Process(cfg, w, db, peer, EventMsg(e), r)
            == if e.kind.OptProposalMsg? && !cfg.optProposals then (w, Err(FeatureDisabled))
               else if ForQuorumStore(e.kind) && !w.m.quorumStoreEnabled then
                 (w, if w.m.recoveryMode then Ok(()) else Err(QuorumStoreDisabled))
               else (w.(tasks := w.tasks + [Captures(w.m, e)]), Ok(()))
  {
  }

  /** The endings from `start` up to `end`, at most a hundred of them; more are announced. */
  function Endings(db: EpochDb, start: nat, end: nat): EpochChangeProof
    requires start <= end <= |db.endings|
  {
    var stop := if end - start > 100 then start + 100 else end;
    EpochChangeProof(db.endings[start..stop], stop < end)
  }

  /** What is answered to a peer heard in epoch `other`. */
  ghost predicate AnswersOther(cfg: Settings, w: World, db: EpochDb, other: nat, peer: Author,
                               out: (World, Result<(), Failure>))
    requires w.m.epochState.Some? && other != w.m.epochState.value.epoch
  {
    var mine := w.m.epochState.value;
    if other > mine.epoch then
      out == (w.(outbox := w.outbox + [Packet(peer, RetrievalMsg(mine.epoch, other))]), Ok(()))
    else if cfg.author in mine.verifier.Authors() then out == (w, Ok(()))
    else if mine.epoch > |db.endings| then out == (w, Err(DbFailure))
    else out == (w.(outbox := w.outbox + [Packet(peer, ProofMsg(Endings(db, other, mine.epoch)))]), Ok(()))
  }

  /** The own epoch is not another one. */
  lemma SameEpochIsRefused(cfg: Settings, w: World, db: EpochDb, peer: Author)
    requires w.m.epochState.Some?
    ensures DifferentEpoch(cfg, w, db, w.m.epochState.value.epoch, peer) == (w, Err(SameEpoch))
  {
  }

  /** An event of another epoch is never taken: it is answered, or ignored by a validator that is ahead. */
  lemma OtherEvent(cfg: Settings, w: World, db: EpochDb, peer: Author, e: Event, r: Reconfig)
    requires w.m.epochState.Some? && e.epoch != Some(w.m.epochState.value.epoch)
    ensures var out := Process(cfg, w, db, peer, EventMsg(e), r);
            if e.kind.OptProposalMsg? && !cfg.optProposals then out == (w, Err(FeatureDisabled))
            else if e.epoch.None? then out == (w, Err(NoEpoch))
            else AnswersOther(cfg, w, db, e.epoch.value, peer, out)
  {
  }

  /** A request for endings is answered if it does not reach past the own epoch, and the database has them. */
  lemma RetrievalIsAnswered(cfg: Settings, w: World, db: EpochDb, peer: Author, start: nat, end: nat, r: Reconfig)
    requires w.m.epochState.Some?
    ensures Process(cfg, w, db, peer, RetrievalMsg(start, end), r)
            == if end > w.m.epochState.value.epoch then (w, Err(BeyondLocalEpoch))
               else if start > end || end > |db.endings| then (w, Err(DbFailure))
               else (w.(outbox := w.outbox + [Packet(peer, ProofMsg(Endings(db, start, end)))]), Ok(()))
  {
  }

  /** The sender for each kind of request. */
  function RpcSender(m: Manager, kind: RpcKind): Option<Channel> {
    match kind
    case BatchRetrieval => m.batchRetrievalTx
    case DagRequest => m.dagRpcTx
    case CommitRequest => None
    case RandGenRequest => m.randManagerMsgTx
    case BlockRetrieval => m.blockRetrievalTx
  }

  /**
   A request of another epoch is answered like an event. One of the current epoch, or a block retrieval that names none,
   is pushed once into the sender for its kind; without one it is dropped, with an error unless it asks for blocks.
   */
  lemma RequestIsPushed(cfg: Settings, w: World, db: EpochDb, peer: Author, q: Rpc)
    requires w.m.epochState.Some?
    ensures var out, mine := ProcessRpc(cfg, w, db, peer, q), w.m.epochState.value;
            if q.epoch.Some? && q.epoch.value != mine.epoch then AnswersOther(cfg, w, db, q.epoch.value, peer, out)
            else if q.epoch.None? && q.kind != BlockRetrieval then out == (w, Err(Unexpected))
            else
              match RpcSender(w.m, q.kind)
              case Some(c) => out == (w.(pushes := w.pushes + [RpcPush(c, q, mine)]), Ok(()))
              case None =>
                out == (w, if q.kind == BlockRetrieval || q.kind == CommitRequest then Ok(()) else Err(NotStarted))
  {
  }

  /** In every run the round timer reaches the round manager of the current epoch, exactly unless that runs a DAG. */
  lemma TimeoutsReachRoundManager(env: Env, ws: seq<World>, steps: seq<Step>, k: nat, round: nat)
    requires Run(env, ws, steps) && k < |steps| && steps[k] == TimerFires(round)
    ensures ws[k].m.epochState.Some?
    ensures var s := ws[k].m.epochState.value;
            ws[k + 1] == if Began(ws[k].acts, DagBootstrapper, s.epoch) then ws[k]
                         else ws[k].(pushes := ws[k].pushes + [TimeoutPush(Channel(s), round)])
  {
    assert Next(env, ws[k], steps[k], ws[k + 1]);
    RunKeepsInv(env, ws, steps, k);
  }

  // ---------------------------------------------------------------------------------------------
  // From the wire to the round manager
  // ---------------------------------------------------------------------------------------------

  /** The kinds that go to the round manager, proposals apart. */
  predicate ForRoundManager(kind: Kind) {
    match kind
    case VoteMsg => true
    case OrderVoteMsg => true
    case SyncInfo => true
    case RoundTimeoutMsg => true
    case _ => false
  }

  /**
   A valid vote, order vote, sync info or round timeout of the current epoch, delivered and verified, is then the one
   new push, at the round manager of that epoch, if it has one.
   */
  lemma VotesReachRoundManager(env: Env, ws: seq<World>, steps: seq<Step>, w': World, w'': World, db: EpochDb,
                               peer: Author, e: Event, r: Reconfig)
    requires Run(env, ws, steps) && ws[|steps|].m.epochState.Some?
    requires var w := ws[|steps|];
             && e.epoch == Some(w.m.epochState.value.epoch) && ForRoundManager(e.kind)
             && env.valid(e, w.m.epochState.value)
             && Next(env, w, Deliver(db, peer, EventMsg(e), r), w')
             && Next(env, w', TaskEnds(|w.tasks|), w'')
    ensures var w, s := ws[|steps|], ws[|steps|].m.epochState.value;
            w'' == if Began(w.acts, DagBootstrapper, s.epoch) then w
                   else w.(pushes := w.pushes + [EventPush(RoundManagerQueue, Channel(s), e, s)])
  {
    var w := ws[|steps|];
    RunKeepsInv(env, ws, steps, |steps|);
    CurrentEvent(env.cfg, w, db, peer, e, r);
    FinishedTask(w', |w.tasks|, true);
    assert w'.tasks[..|w.tasks|] + w'.tasks[|w.tasks| + 1..] == w.tasks;
  }

  // ---------------------------------------------------------------------------------------------
  // A new epoch
  // ---------------------------------------------------------------------------------------------

  /** What runs in an epoch. */
  function Runs(r: Reconfig): ProcessorKind {
    if r.dag then DagBootstrapper else if r.partialRecovery then RecoveryManager else RoundManager
  }

  /**
   After a verified proof every field is settled: what the new epoch starts gets a new sender; of the rest the quorum
   store's, block retrieval's, batch retrieval's and round manager's are gone, while the proposal buffer's and the DAG's
   are left from before. What ran has been closed, and no block is pending.
   */
  lemma NewEpochFields(w: World, proof: EpochChangeProof, r: Reconfig)
    requires w.m.epochState.Some? && VerifyResult(proof, TrustEpoch(w.m.epochState.value)).Ok?
    ensures var out := Initiate(w, proof, r);
            var c, p, m := Some(Channel(r.state)), Processor(Runs(r), r.state.epoch), out.0.m;
            var round := Runs(r) == RoundManager;
            && out.1 == Ok(())
            && m.epochState == Some(r.state)
            && m.roundManagerTx == (if r.dag then None else c)
            && m.bufferedProposalTx == (if round then c else w.m.bufferedProposalTx)
            && m.blockRetrievalTx == (if round then c else None)
            && m.quorumStoreEnabled == r.quorumStore
            && m.quorumStoreMsgTx == (if r.quorumStore then c else None)
            && m.quorumStoreCoordinatorTx == (if r.quorumStore then c else None)
            && m.batchRetrievalTx == (if r.quorumStore then c else None)
            && m.randManagerMsgTx == c
            && m.dagRpcTx == (if r.dag then c else w.m.dagRpcTx)
            && m.roundManagerCloseTx == (if r.dag then None else Some(p))
            && m.dagShutdownTx == (if r.dag then Some(p) else None)
            && m.recoveryMode == (if r.dag then w.m.recoveryMode else Runs(r) == RecoveryManager)
            && out.0.acts == w.acts
                             + (if w.m.roundManagerCloseTx.Some? then [Acked(w.m.roundManagerCloseTx.value)] else [])
                             + (if w.m.dagShutdownTx.Some? then [Acked(w.m.dagShutdownTx.value)] else [])
                             + [Spawned(p)]
            && out.0.pendingBlocks == {}
            && out.0.tasks == w.tasks && out.0.pushes == w.pushes && out.0.outbox == w.outbox
  {
  }

  /** A proof starts a new epoch exactly if it begins at the current one and verifies; any other changes nothing. */
  lemma ProofStartsEpoch(cfg: Settings, w: World, db: EpochDb, peer: Author, proof: EpochChangeProof, r: Reconfig)
    requires w.m.epochState.Some?
    ensures var s := w.m.epochState.value;
            Process(cfg, w, db, peer, ProofMsg(proof), r)
            == if proof.infos == [] then (w, Err(InvalidProof))
               else if proof.infos[0].info.epoch != s.epoch then (w, Ok(()))
               else if VerifyResult(proof, TrustEpoch(s)).Err? then (w, Err(InvalidProof))
               else Initiate(w, proof, r)
  {
  }
}
