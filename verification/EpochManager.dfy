/**
 The epoch manager: routing of consensus messages, start and stop of the per-epoch processors, and the epoch
 retrieval protocol (consensus/src/epoch_manager.rs).

 A channel carries the epoch state it was created for. Spawned consensus tasks and their shutdown
 acknowledgements are recorded in order in `acts`; verification tasks capture what the manager held when the
 message came in and may finish at any later time.
 */
module EpochManager {
  import opened Wrappers
  import opened Quorum
  import opened EpochChange

  datatype Kind =
    | ProposalMsg
    | OptProposalMsg
    | VoteMsg
    | OrderVoteMsg
    | SyncInfo
    | RoundTimeoutMsg
    | BatchMsg
    | SignedBatchInfo
    | ProofOfStoreMsg

  /** A quorum store message whose parts disagree on the epoch has none. */
  datatype Event = Event(kind: Kind, epoch: Option<nat>, id: nat)

  datatype Message =
    | EventMsg(event: Event)
    | ProofMsg(proof: EpochChangeProof)
    | RetrievalMsg(start: nat, end: nat)
    | OtherMsg

  datatype Packet = Packet(to: Author, msg: Message)

  datatype RpcKind = BatchRetrieval | DagRequest | CommitRequest | RandGenRequest | BlockRetrieval

  datatype Rpc = Rpc(kind: RpcKind, epoch: Option<nat>, id: nat)

  datatype Channel = Channel(made: EpochState)

  datatype ProcessorKind = RoundManager | RecoveryManager | DagBootstrapper

  datatype Processor = Processor(kind: ProcessorKind, epoch: nat)

  datatype Act = Spawned(processor: Processor) | Acked(processor: Processor)

  /** A spawned verification: the event, and what was captured for it. */
  datatype Task = Task(
    event: Event,
    state: EpochState,
    quorumStoreTx: Option<Channel>,
    roundManagerTx: Option<Channel>,
    bufferedTx: Option<Channel>)

  datatype Queue = RoundManagerQueue | BufferedQueue | QuorumStoreQueue

  /** What was pushed, into which channel, and the epoch state it was checked against. */
  datatype Push =
    | EventPush(queue: Queue, tx: Channel, event: Event, checkedWith: EpochState)
    | RpcPush(rpcTx: Channel, rpc: Rpc, checkedIn: EpochState)
    | TimeoutPush(timeoutTx: Channel, round: nat)

  datatype Failure =
    | FeatureDisabled
    | NoEpoch
    | InvalidProof
    | BeyondLocalEpoch
    | DbFailure
    | QuorumStoreDisabled
    | SameEpoch
    | NotStarted
    | Unexpected

  datatype Manager = Manager(
    epochState: Option<EpochState>,
    roundManagerTx: Option<Channel>,
    bufferedProposalTx: Option<Channel>,
    roundManagerCloseTx: Option<Processor>,
    blockRetrievalTx: Option<Channel>,
    quorumStoreMsgTx: Option<Channel>,
    quorumStoreCoordinatorTx: Option<Channel>,
    batchRetrievalTx: Option<Channel>,
    randManagerMsgTx: Option<Channel>,
    dagRpcTx: Option<Channel>,
    dagShutdownTx: Option<Processor>,
    quorumStoreEnabled: bool,
    recoveryMode: bool)

  /** The manager and everything it has caused. */
  datatype World = World(
    m: Manager,
    acts: seq<Act>,
    pendingBlocks: set<Event>,
    tasks: seq<Task>,
    pushes: seq<Push>,
    outbox: seq<Packet>)

  /** What a reconfiguration notification and the local storage say about the epoch to start. */
  datatype Reconfig = Reconfig(state: EpochState, quorumStore: bool, dag: bool, partialRecovery: bool)

  datatype Settings = Settings(author: Author, optProposals: bool)

  /** `endings[e]` ends epoch `e`. */
  datatype EpochDb = EpochDb(endings: seq<SignedLedgerInfo>)

  function EpochEndings(db: EpochDb, start: nat, end: nat): Result<EpochChangeProof, Failure> {
    if start > end || end > |db.endings| then Err(DbFailure)
    else
      var stop := Min(end, start + MAX_NUM_EPOCH_ENDING_LEDGER_INFO);
      Ok(EpochChangeProof(db.endings[start..stop], stop < end))
  }

  predicate IsQuorumStoreKind(k: Kind) {
    k.BatchMsg? || k.SignedBatchInfo? || k.ProofOfStoreMsg?
  }

  predicate IsProposalKind(k: Kind) {
    k.ProposalMsg? || k.OptProposalMsg?
  }

  // ---------------------------------------------------------------------------------------------
  // Start and stop, as functions
  // ---------------------------------------------------------------------------------------------

  function Closing(p: Option<Processor>): seq<Act> {
    match p
    case None => []
    case Some(x) => [Acked(x)]
  }

  /** Close what runs and wait for its acknowledgement; some channels are dropped, some are left. */
  function Shutdown(w: World): World {
    w.(m := Stopped(w.m), acts := w.acts + Closing(w.m.roundManagerCloseTx) + Closing(w.m.dagShutdownTx))
  }

  function Stopped(m: Manager): Manager {
    m.(roundManagerCloseTx := None, roundManagerTx := None, dagShutdownTx := None, randManagerMsgTx := None,
       blockRetrievalTx := None, batchRetrievalTx := None, quorumStoreCoordinatorTx := None)
  }

  function ProcessorOf(r: Reconfig): Processor {
    Processor(if r.dag then DagBootstrapper else if r.partialRecovery then RecoveryManager else RoundManager,
              r.state.epoch)
  }

  function StartShared(m: Manager, r: Reconfig): Manager {
    var c := Some(Channel(r.state));
    m.(epochState := Some(r.state),
       quorumStoreEnabled := r.quorumStore,
       quorumStoreMsgTx := if r.quorumStore then c else None,
       quorumStoreCoordinatorTx := if r.quorumStore then c else m.quorumStoreCoordinatorTx,
       batchRetrievalTx := if r.quorumStore then c else m.batchRetrievalTx,
       randManagerMsgTx := c)
  }

  function StartProcessor(m: Manager, r: Reconfig): Manager {
    var c, p := Some(Channel(r.state)), Some(ProcessorOf(r));
    if r.dag then m.(dagRpcTx := c, dagShutdownTx := p)
    else if r.partialRecovery then m.(recoveryMode := true, roundManagerTx := c, roundManagerCloseTx := p)
    else m.(recoveryMode := false, roundManagerTx := c, bufferedProposalTx := c, roundManagerCloseTx := p,
            blockRetrievalTx := c)
  }

  function StartNewEpoch(w: World, r: Reconfig): World {
    w.(m := StartProcessor(StartShared(w.m, r), r), acts := w.acts + [Spawned(ProcessorOf(r))])
  }

  function Initiate(w: World, proof: EpochChangeProof, r: Reconfig): (World, Result<(), Failure>)
    requires w.m.epochState.Some?
  {
    match VerifyResult(proof, TrustEpoch(w.m.epochState.value))
    case Err(_) => (w, Err(InvalidProof))
    case Ok(_) => (StartNewEpoch(Shutdown(w).(pendingBlocks := {}), r), Ok(()))
  }

  // ---------------------------------------------------------------------------------------------
  // Messages, as functions
  // ---------------------------------------------------------------------------------------------

  function Send(w: World, to: Author, msg: Message): World {
    w.(outbox := w.outbox + [Packet(to, msg)])
  }

  function Retrieve(w: World, db: EpochDb, start: nat, end: nat, peer: Author): (World, Result<(), Failure>) {
    match EpochEndings(db, start, end)
    case Err(e) => (w, Err(e))
    case Ok(proof) => (Send(w, peer, ProofMsg(proof)), Ok(()))
  }

  function DifferentEpoch(cfg: Settings, w: World, db: EpochDb, other: nat, peer: Author)
    : (World, Result<(), Failure>)
    requires w.m.epochState.Some?
  {
    var mine := w.m.epochState.value;
    if other < mine.epoch then
      if cfg.author in mine.verifier.Authors() then (w, Ok(()))
      else Retrieve(w, db, other, mine.epoch, peer)
    else if other > mine.epoch then (Send(w, peer, RetrievalMsg(mine.epoch, other)), Ok(()))
    else (w, Err(SameEpoch))
  }

  /** The event goes on to verification only if it is of the current epoch. */
  function CheckEpoch(cfg: Settings, w: World, db: EpochDb, peer: Author, msg: Message, r: Reconfig)
    : (World, Result<Option<Event>, Failure>)
    requires w.m.epochState.Some?
  {
    var epoch := w.m.epochState.value.epoch;
    match msg
    case EventMsg(event) =>
      (match event.epoch
       case None => (w, Err(NoEpoch))
       case Some(other) =>
         if other == epoch then (w, Ok(Some(event)))
         else Dropping(DifferentEpoch(cfg, w, db, other, peer)))
    case ProofMsg(proof) =>
      (match ProofEpoch(proof)
       case Err(_) => (w, Err(InvalidProof))
       case Ok(first) => if first == epoch then Dropping(Initiate(w, proof, r)) else (w, Ok(None)))
    case RetrievalMsg(start, end) =>
      if end > epoch then (w, Err(BeyondLocalEpoch)) else Dropping(Retrieve(w, db, start, end, peer))
    case OtherMsg => (w, Err(Unexpected))
  }

  function Dropping(x: (World, Result<(), Failure>)): (World, Result<Option<Event>, Failure>) {
    (x.0, match x.1 case Ok(_) => Ok(None) case Err(e) => Err(e))
  }

  /** Ok(false) drops the event silently. */
  function Admits(m: Manager, event: Event): Result<bool, Failure> {
    if !IsQuorumStoreKind(event.kind) || m.quorumStoreEnabled then Ok(true)
    else if m.recoveryMode then Ok(false)
    else Err(QuorumStoreDisabled)
  }

  function TaskFor(m: Manager, event: Event): Task
    requires m.epochState.Some?
  {
    Task(event, m.epochState.value, m.quorumStoreMsgTx, m.roundManagerTx, m.bufferedProposalTx)
  }

  function Process(cfg: Settings, w: World, db: EpochDb, peer: Author, msg: Message, r: Reconfig)
    : (World, Result<(), Failure>)
    requires w.m.epochState.Some?
  {
    if msg.EventMsg? && msg.event.kind.OptProposalMsg? && !cfg.optProposals then (w, Err(FeatureDisabled))
    else
      match CheckEpoch(cfg, w, db, peer, msg, r)
      case (w', Err(e)) => (w', Err(e))
      case (w', Ok(None)) => (w', Ok(()))
      case (w', Ok(Some(event))) =>
        match Admits(w'.m, event)
        case Err(e) => (w', Err(e))
        case Ok(admitted) =>
          if !admitted then (w', Ok(()))
          else (w'.(tasks := w'.tasks + [TaskFor(w'.m, event)]), Ok(()))
  }

  /** Where a verified event goes. */
  function TargetOf(t: Task): (Queue, Option<Channel>) {
    if IsQuorumStoreKind(t.event.kind) then (QuorumStoreQueue, t.quorumStoreTx)
    else if IsProposalKind(t.event.kind) then (BufferedQueue, t.bufferedTx)
    else (RoundManagerQueue, t.roundManagerTx)
  }

  function Forward(w: World, t: Task): World {
    var (queue, tx) := TargetOf(t);
    w.(pendingBlocks := if t.event.kind.ProposalMsg? then w.pendingBlocks + {t.event} else w.pendingBlocks,
       pushes := match tx
                 case None => w.pushes
                 case Some(c) => w.pushes + [EventPush(queue, c, t.event, t.state)])
  }

  /** A verification task ends; `valid` is the outcome of checking the event against the captured verifier. */
  function Finish(w: World, i: nat, valid: bool): World
    requires i < |w.tasks|
  {
    var rest := w.(tasks := w.tasks[..i] + w.tasks[i + 1..]);
    if valid then Forward(rest, w.tasks[i]) else rest
  }

  function LocalTimeout(w: World, round: nat): World {
    match w.m.roundManagerTx
    case None => w
    case Some(c) => w.(pushes := w.pushes + [TimeoutPush(c, round)])
  }

  function RpcTarget(m: Manager, kind: RpcKind): Option<Channel> {
    match kind
    case BatchRetrieval => m.batchRetrievalTx
    case DagRequest => m.dagRpcTx
    case RandGenRequest => m.randManagerMsgTx
    case BlockRetrieval => m.blockRetrievalTx
    case CommitRequest => None
  }

  /** Commit requests go to the execution client, which is not part of this model. */
  function ProcessRpc(cfg: Settings, w: World, db: EpochDb, peer: Author, q: Rpc): (World, Result<(), Failure>)
    requires w.m.epochState.Some?
  {
    if q.epoch.Some? && q.epoch.value != w.m.epochState.value.epoch then
      DifferentEpoch(cfg, w, db, q.epoch.value, peer)
    else if q.epoch.None? && !q.kind.BlockRetrieval? then (w, Err(Unexpected))
    else
      match RpcTarget(w.m, q.kind)
      case Some(c) => (w.(pushes := w.pushes + [RpcPush(c, q, w.m.epochState.value)]), Ok(()))
      case None => (w, if q.kind.BlockRetrieval? || q.kind.CommitRequest? then Ok(()) else Err(NotStarted))
  }

  // ---------------------------------------------------------------------------------------------
  // The manager as the code runs it
  // ---------------------------------------------------------------------------------------------

  class EpochManager {
    const settings: Settings
    var epochState: Option<EpochState>
    var roundManagerTx: Option<Channel>
    var bufferedProposalTx: Option<Channel>
    var roundManagerCloseTx: Option<Processor>
    var blockRetrievalTx: Option<Channel>
    var quorumStoreMsgTx: Option<Channel>
    var quorumStoreCoordinatorTx: Option<Channel>
    var batchRetrievalTx: Option<Channel>
    var randManagerMsgTx: Option<Channel>
    var dagRpcTx: Option<Channel>
    var dagShutdownTx: Option<Processor>
    var quorumStoreEnabled: bool
    var recoveryMode: bool
    var acts: seq<Act>
    var pendingBlocks: set<Event>
    var tasks: seq<Task>
    var pushes: seq<Push>
    var outbox: seq<Packet>

    constructor (settings: Settings)
      ensures this.settings == settings && View() == Fresh()
    {
      this.settings := settings;
      epochState, roundManagerTx, bufferedProposalTx, roundManagerCloseTx := None, None, None, None;
      blockRetrievalTx, quorumStoreMsgTx, quorumStoreCoordinatorTx, batchRetrievalTx := None, None, None, None;
      randManagerMsgTx, dagRpcTx, dagShutdownTx := None, None, None;
      quorumStoreEnabled, recoveryMode := false, false;
      acts, pendingBlocks, tasks, pushes, outbox := [], {}, [], [], [];
    }

    function Fields(): Manager
      reads this
    {
      Manager(epochState, roundManagerTx, bufferedProposalTx, roundManagerCloseTx, blockRetrievalTx,
              quorumStoreMsgTx, quorumStoreCoordinatorTx, batchRetrievalTx, randManagerMsgTx, dagRpcTx,
              dagShutdownTx, quorumStoreEnabled, recoveryMode)
    }

    function View(): World
      reads this
    {
      World(Fields(), acts, pendingBlocks, tasks, pushes, outbox)
    }

    method ShutdownCurrentProcessor()
      modifies this
      ensures View() == Shutdown(old(View()))
    {
      ghost var before := View();
      CloseRoundManager();
      CloseDag();
      randManagerMsgTx := None;
      blockRetrievalTx := None;
      batchRetrievalTx := None;
      quorumStoreCoordinatorTx := None;
      assert Fields() == Stopped(before.m);
    }

    method CloseRoundManager()
      modifies this`acts, this`roundManagerCloseTx, this`roundManagerTx
      ensures roundManagerCloseTx == None && roundManagerTx == None
      ensures acts == old(acts) + Closing(old(roundManagerCloseTx))
    {
      if roundManagerCloseTx.Some? {
        acts := acts + [Acked(roundManagerCloseTx.value)];
        roundManagerCloseTx := None;
      }
      roundManagerTx := None;
    }

    method CloseDag()
      modifies this`acts, this`dagShutdownTx
      ensures dagShutdownTx == None
      ensures acts == old(acts) + Closing(old(dagShutdownTx))
    {
      if dagShutdownTx.Some? {
        acts := acts + [Acked(dagShutdownTx.value)];
      }
      dagShutdownTx := None;
    }

    method StartEpoch(r: Reconfig)
      modifies this
      ensures View() == StartNewEpoch(old(View()), r)
    {
      StartComponents(r);
      StartConsensus(r);
    }

    method StartComponents(r: Reconfig)
      modifies this`epochState, this`randManagerMsgTx, this`quorumStoreEnabled, this`quorumStoreMsgTx,
               this`quorumStoreCoordinatorTx, this`batchRetrievalTx
      ensures Fields() == StartShared(old(Fields()), r)
    {
      epochState := Some(r.state);
      InitializeSharedComponent(r);
      randManagerMsgTx := Some(Channel(r.state));
    }

    method StartConsensus(r: Reconfig)
      modifies this`roundManagerTx, this`bufferedProposalTx, this`roundManagerCloseTx, this`blockRetrievalTx,
               this`dagRpcTx, this`dagShutdownTx, this`recoveryMode, this`acts
      ensures Fields() == StartProcessor(old(Fields()), r)
      ensures acts == old(acts) + [Spawned(ProcessorOf(r))]
    {
      if r.dag {
        StartNewEpochWithDag(r.state);
      } else if !r.partialRecovery {
        recoveryMode := false;
        StartRoundManager(r.state);
      } else {
        recoveryMode := true;
        StartRecoveryManager(r.state);
      }
    }

    method InitializeSharedComponent(r: Reconfig)
      modifies this`quorumStoreEnabled, this`quorumStoreMsgTx, this`quorumStoreCoordinatorTx, this`batchRetrievalTx
      ensures quorumStoreEnabled == r.quorumStore
      ensures quorumStoreMsgTx == if r.quorumStore then Some(Channel(r.state)) else None
      ensures if r.quorumStore then quorumStoreCoordinatorTx == batchRetrievalTx == Some(Channel(r.state))
              else quorumStoreCoordinatorTx == old(quorumStoreCoordinatorTx)
                   && batchRetrievalTx == old(batchRetrievalTx)
    {
      quorumStoreEnabled := r.quorumStore;
      quorumStoreMsgTx := if r.quorumStore then Some(Channel(r.state)) else None;
      if r.quorumStore {
        quorumStoreCoordinatorTx := Some(Channel(r.state));
        batchRetrievalTx := Some(Channel(r.state));
      }
    }

    method StartRoundManager(state: EpochState)
      modifies this`roundManagerTx, this`bufferedProposalTx, this`roundManagerCloseTx, this`blockRetrievalTx, this`acts
      ensures roundManagerTx == bufferedProposalTx == blockRetrievalTx == Some(Channel(state))
      ensures roundManagerCloseTx == Some(Processor(RoundManager, state.epoch))
      ensures acts == old(acts) + [Spawned(Processor(RoundManager, state.epoch))]
    {
      roundManagerTx := Some(Channel(state));
      bufferedProposalTx := Some(Channel(state));
      roundManagerCloseTx := Some(Processor(RoundManager, state.epoch));
      acts := acts + [Spawned(Processor(RoundManager, state.epoch))];
      blockRetrievalTx := Some(Channel(state));
    }

    method StartRecoveryManager(state: EpochState)
      modifies this`roundManagerTx, this`roundManagerCloseTx, this`acts
      ensures roundManagerTx == Some(Channel(state))
      ensures roundManagerCloseTx == Some(Processor(RecoveryManager, state.epoch))
      ensures acts == old(acts) + [Spawned(Processor(RecoveryManager, state.epoch))]
    {
      roundManagerTx := Some(Channel(state));
      roundManagerCloseTx := Some(Processor(RecoveryManager, state.epoch));
      acts := acts + [Spawned(Processor(RecoveryManager, state.epoch))];
    }

    method StartNewEpochWithDag(state: EpochState)
      modifies this`dagRpcTx, this`dagShutdownTx, this`acts
      ensures dagRpcTx == Some(Channel(state))
      ensures dagShutdownTx == Some(Processor(DagBootstrapper, state.epoch))
      ensures acts == old(acts) + [Spawned(Processor(DagBootstrapper, state.epoch))]
    {
      dagRpcTx := Some(Channel(state));
      dagShutdownTx := Some(Processor(DagBootstrapper, state.epoch));
      acts := acts + [Spawned(Processor(DagBootstrapper, state.epoch))];
    }

    method ProcessEpochRetrieval(db: EpochDb, start: nat, end: nat, peer: Author) returns (res: Result<(), Failure>)
      modifies this`outbox
      ensures (View(), res) == Retrieve(old(View()), db, start, end, peer)
    {
      var proof := EpochEndings(db, start, end);
      if proof.Err? {
        return Err(proof.error);
      }
      outbox := outbox + [Packet(peer, ProofMsg(proof.value))];
      return Ok(());
    }

    method ProcessDifferentEpoch(db: EpochDb, differentEpoch: nat, peer: Author) returns (res: Result<(), Failure>)
      requires epochState.Some?
      modifies this`outbox
      ensures (View(), res) == DifferentEpoch(settings, old(View()), db, differentEpoch, peer)
    {
      var mine := epochState.value;
      if differentEpoch < mine.epoch {
        if settings.author in mine.verifier.Authors() {
          return Ok(());
        }
        res := ProcessEpochRetrieval(db, differentEpoch, mine.epoch, peer);
      } else if differentEpoch > mine.epoch {
        outbox := outbox + [Packet(peer, RetrievalMsg(mine.epoch, differentEpoch))];
        return Ok(());
      } else {
        return Err(SameEpoch);
      }
    }

    method InitiateNewEpoch(proof: EpochChangeProof, r: Reconfig) returns (res: Result<(), Failure>)
      requires epochState.Some?
      modifies this
      ensures (View(), res) == Initiate(old(View()), proof, r)
    {
      var verified := VerifyProof(proof, TrustEpoch(epochState.value));
      if verified.Err? {
        return Err(InvalidProof);
      }
      ShutdownCurrentProcessor();
      pendingBlocks := {};
      StartEpoch(r);
      return Ok(());
    }

    method CheckMessageEpoch(db: EpochDb, peer: Author, msg: Message, r: Reconfig)
      returns (res: Result<Option<Event>, Failure>)
      requires epochState.Some?
      modifies this
      ensures (View(), res) == CheckEpoch(settings, old(View()), db, peer, msg, r)
    {
      match msg {
        case EventMsg(event) =>
          if event.epoch.None? {
            return Err(NoEpoch);
          }
          if event.epoch.value == epochState.value.epoch {
            return Ok(Some(event));
          }
          var done := ProcessDifferentEpoch(db, event.epoch.value, peer);
          return if done.Err? then Err(done.error) else Ok(None);
        case ProofMsg(proof) =>
          var msgEpoch := ProofEpoch(proof);
          if msgEpoch.Err? {
            return Err(InvalidProof);
          }
          if msgEpoch.value == epochState.value.epoch {
            var done := InitiateNewEpoch(proof, r);
            return if done.Err? then Err(done.error) else Ok(None);
          }
          return Ok(None);
        case RetrievalMsg(start, end) =>
          if end > epochState.value.epoch {
            return Err(BeyondLocalEpoch);
          }
          var done := ProcessEpochRetrieval(db, start, end, peer);
          return if done.Err? then Err(done.error) else Ok(None);
        case OtherMsg =>
          return Err(Unexpected);
      }
    }

    method ProcessMessage(db: EpochDb, peer: Author, msg: Message, r: Reconfig) returns (res: Result<(), Failure>)
      requires epochState.Some?
      modifies this
      ensures (View(), res) == Process(settings, old(View()), db, peer, msg, r)
    {
      if msg.EventMsg? && msg.event.kind.OptProposalMsg? && !settings.optProposals {
        return Err(FeatureDisabled);
      }
      var checked := CheckMessageEpoch(db, peer, msg, r);
      if checked.Err? {
        return Err(checked.error);
      }
      if checked.value.Some? {
        var event := checked.value.value;
        var admitted := Admits(Fields(), event);
        if admitted.Err? {
          return Err(admitted.error);
        }
        if admitted.value {
          tasks := tasks + [Task(event, epochState.value, quorumStoreMsgTx, roundManagerTx, bufferedProposalTx)];
        }
      }
      return Ok(());
    }

    /** A captured task, run to its end after the manager may have moved on. */
    method FinishVerification(i: nat, valid: bool)
      requires i < |tasks|
      modifies this`tasks, this`pendingBlocks, this`pushes
      ensures View() == Finish(old(View()), i, valid)
    {
      var t := tasks[i];
      tasks := tasks[..i] + tasks[i + 1..];
      if valid {
        ForwardEvent(t);
      }
    }

    method ForwardEvent(t: Task)
      modifies this`pendingBlocks, this`pushes
      ensures View() == Forward(old(View()), t)
    {
      if IsQuorumStoreKind(t.event.kind) {
        if t.quorumStoreTx.Some? {
          pushes := pushes + [EventPush(QuorumStoreQueue, t.quorumStoreTx.value, t.event, t.state)];
        }
      } else if IsProposalKind(t.event.kind) {
        if t.event.kind.ProposalMsg? {
          pendingBlocks := pendingBlocks + {t.event};
        }
        if t.bufferedTx.Some? {
          pushes := pushes + [EventPush(BufferedQueue, t.bufferedTx.value, t.event, t.state)];
        }
      } else if t.roundManagerTx.Some? {
        pushes := pushes + [EventPush(RoundManagerQueue, t.roundManagerTx.value, t.event, t.state)];
      }
    }

    method ProcessRpcRequest(db: EpochDb, peer: Author, q: Rpc) returns (res: Result<(), Failure>)
      requires epochState.Some?
      modifies this`outbox, this`pushes
      ensures (View(), res) == ProcessRpc(settings, old(View()), db, peer, q)
    {
      if q.epoch.Some? && q.epoch.value != epochState.value.epoch {
        res := ProcessDifferentEpoch(db, q.epoch.value, peer);
        return;
      }
      if q.epoch.None? && !q.kind.BlockRetrieval? {
        return Err(Unexpected);
      }
      var tx := RpcTarget(Fields(), q.kind);
      if tx.Some? {
        pushes := pushes + [RpcPush(tx.value, q, epochState.value)];
        return Ok(());
      }
      return if q.kind.BlockRetrieval? || q.kind.CommitRequest? then Ok(()) else Err(NotStarted);
    }

    method ProcessLocalTimeout(round: nat)
      modifies this`pushes
      ensures View() == LocalTimeout(old(View()), round)
    {
      if roundManagerTx.Some? {
        pushes := pushes + [TimeoutPush(roundManagerTx.value, round)];
      }
    }
  }

  function Fresh(): World {
    World(Manager(None, None, None, None, None, None, None, None, None, None, None, false, false), [], {}, [], [], [])
  }
}
