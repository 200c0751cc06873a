/**
 Every run of one epoch manager, against arbitrary messages, duplicated or stale, and with verification tasks
 that finish at any time: epochs stay apart, and one consensus processor runs at a time.

 Assumed of the surroundings: a quorum of an epoch signs only the real end of that epoch; the notification that
 follows a state sync carries the epoch of the ledger info synced to; the database holds the endings in order.
 */
module EpochIsolation {
  import opened Wrappers
  import opened Quorum
  import opened EpochChange
  import opened EpochManager

  /** The real validator sets, local settings, and the outcome of checking an event against an epoch. */
  datatype Env = Env(h: History, cfg: Settings, valid: (Event, EpochState) -> bool)

  datatype Step =
    | Deliver(db: EpochDb, peer: Author, msg: Message, r: Reconfig)
    | TaskEnds(i: nat)
    | RpcArrives(rdb: EpochDb, from: Author, q: Rpc)
    | TimerFires(round: nat)

  /** The proof makes this manager change epoch. */
  predicate Moves(w: World, msg: Message) {
    && w.m.epochState.Some?
    && msg.ProofMsg?
    && ProofEpoch(msg.proof) == Ok(w.m.epochState.value.epoch)
    && VerifyResult(msg.proof, TrustEpoch(w.m.epochState.value)).Ok?
  }

  ghost predicate Enabled(env: Env, w: World, step: Step) {
    && w.m.epochState.Some?
    && match step
       case Deliver(db, _, msg, r) =>
         && RealEndings(env.h, db.endings)
         && (msg.ProofMsg? ==> GenuineProof(env.h, msg.proof))
         && (Moves(w, msg) ==> VerifyResult(msg.proof, TrustEpoch(w.m.epochState.value)).value.next == Some(r.state))
       case TaskEnds(i) => i < |w.tasks|
       case RpcArrives(db, _, _) => RealEndings(env.h, db.endings)
       case TimerFires(_) => true
  }

  function Apply(env: Env, w: World, step: Step): World
    requires w.m.epochState.Some? && (step.TaskEnds? ==> step.i < |w.tasks|)
  {
    match step
    case Deliver(db, peer, msg, r) => Process(env.cfg, w, db, peer, msg, r).0
    case TaskEnds(i) => Finish(w, i, env.valid(w.tasks[i].event, w.tasks[i].state))
    case RpcArrives(db, peer, q) => ProcessRpc(env.cfg, w, db, peer, q).0
    case TimerFires(round) => LocalTimeout(w, round)
  }

  ghost predicate Next(env: Env, w: World, step: Step, w': World) {
    Enabled(env, w, step) && w' == Apply(env, w, step)
  }

  ghost predicate Run(env: Env, ws: seq<World>, steps: seq<Step>) {
    && |ws| == |steps| + 1
    && (exists r: Reconfig :: r.state == StateOf(env.h, r.state.epoch) && ws[0] == StartNewEpoch(Fresh(), r))
    && forall i :: 0 <= i < |steps| ==> Next(env, ws[i], steps[i], ws[i + 1])
  }

  // ---------------------------------------------------------------------------------------------
  // One processor at a time
  // ---------------------------------------------------------------------------------------------

  /** The consensus tasks that run after `acts`. */
  ghost function Live(acts: seq<Act>): set<Processor> {
    if acts == [] then {}
    else
      var before := Live(acts[..|acts| - 1]);
      match acts[|acts| - 1]
      case Spawned(p) => before + {p}
      case Acked(p) => before - {p}
  }

  /** Even entries spawn; odd entries acknowledge what the entry before spawned. */
  predicate TurnAt(acts: seq<Act>, k: nat)
    requires k < |acts|
  {
    if k % 2 == 0 then acts[k].Spawned? else acts[k] == Acked(acts[k - 1].processor)
  }

  /** Each processor is closed before the next is spawned. */
  ghost predicate Alternating(acts: seq<Act>) {
    forall k: nat {:trigger TurnAt(acts, k)} :: k < |acts| ==> TurnAt(acts, k)
  }

  lemma {:induction false} PrefixAlternates(acts: seq<Act>, k: nat)
    requires Alternating(acts) && k <= |acts|
    ensures Alternating(acts[..k])
  {
    forall j: nat | j < k ensures TurnAt(acts[..k], j) {
      assert TurnAt(acts, j);
    }
  }

  lemma {:induction false} AlternatingLive(acts: seq<Act>)
    requires Alternating(acts)
    ensures Live(acts) == if |acts| % 2 == 0 then {} else {acts[|acts| - 1].processor}
  {
    if acts != [] {
      var n := |acts| - 1;
      PrefixAlternates(acts, n);
      AlternatingLive(acts[..n]);
      assert TurnAt(acts, n);
    }
  }

  ghost predicate Began(acts: seq<Act>, kind: ProcessorKind, epoch: nat) {
    Spawned(Processor(kind, epoch)) in acts
  }

  ghost predicate BeganBy(acts: seq<Act>, kind: ProcessorKind, epoch: nat) {
    exists e: nat :: e <= epoch && Began(acts, kind, e)
  }

  /** The last processor spawned that is not a DAG is a recovery manager. */
  ghost function LastWasRecovery(acts: seq<Act>): bool {
    if acts == [] then false
    else
      var last := acts[|acts| - 1];
      if last.Spawned? && !last.processor.kind.DagBootstrapper? then last.processor.kind.RecoveryManager?
      else LastWasRecovery(acts[..|acts| - 1])
  }

  ghost predicate EpochsBelow(acts: seq<Act>, epoch: nat) {
    forall k :: 0 <= k < |acts| ==> acts[k].processor.epoch <= epoch
  }

  // ---------------------------------------------------------------------------------------------
  // The invariant
  // ---------------------------------------------------------------------------------------------

  predicate NoneOr(tx: Option<Channel>, state: EpochState) {
    tx.None? || tx.value == Channel(state)
  }

  /** A channel that one kind of start replaces and shutdown keeps: current exactly if the epoch began that way. */
  ghost predicate KeptChannel(acts: seq<Act>, kind: ProcessorKind, tx: Option<Channel>, state: EpochState) {
    && (tx == Some(Channel(state)) <==> Began(acts, kind, state.epoch))
    && (tx.Some? <==> BeganBy(acts, kind, state.epoch))
    && (tx.Some? ==> tx.value.made == state || tx.value.made.epoch < state.epoch)
  }

  ghost predicate ManagerOk(h: History, w: World) {
    && w.m.epochState.Some?
    && var s := w.m.epochState.value;
       && s == StateOf(h, s.epoch)
       && NoneOr(w.m.roundManagerTx, s) && NoneOr(w.m.quorumStoreMsgTx, s)
       && NoneOr(w.m.blockRetrievalTx, s) && NoneOr(w.m.batchRetrievalTx, s)
       && NoneOr(w.m.quorumStoreCoordinatorTx, s) && NoneOr(w.m.randManagerMsgTx, s)
       && KeptChannel(w.acts, RoundManager, w.m.bufferedProposalTx, s)
       && KeptChannel(w.acts, DagBootstrapper, w.m.dagRpcTx, s)
       && (w.m.quorumStoreMsgTx.Some? <==> w.m.quorumStoreEnabled)
       && (w.m.roundManagerTx.Some? <==> !Began(w.acts, DagBootstrapper, s.epoch))
       && w.m.recoveryMode == LastWasRecovery(w.acts)
  }

  /** The last processor spawned runs, in the current epoch, and its closing handle is held. */
  ghost predicate OneProcessor(w: World) {
    && w.m.epochState.Some?
    && Alternating(w.acts) && |w.acts| % 2 == 1
    && EpochsBelow(w.acts, w.m.epochState.value.epoch)
    && var p := w.acts[|w.acts| - 1].processor;
       && p.epoch == w.m.epochState.value.epoch
       && w.m.roundManagerCloseTx == (if p.kind.DagBootstrapper? then None else Some(p))
       && w.m.dagShutdownTx == (if p.kind.DagBootstrapper? then Some(p) else None)
  }

  ghost predicate TaskOk(acts: seq<Act>, current: nat, t: Task) {
    && t.event.epoch == Some(t.state.epoch) && t.state.epoch <= current
    && NoneOr(t.roundManagerTx, t.state) && NoneOr(t.quorumStoreTx, t.state)
    && KeptChannel(acts, RoundManager, t.bufferedTx, t.state)
    && (IsQuorumStoreKind(t.event.kind) ==> t.quorumStoreTx.Some?)
    && (t.roundManagerTx.Some? <==> !Began(acts, DagBootstrapper, t.state.epoch))
  }

  ghost predicate PushOk(valid: (Event, EpochState) -> bool, acts: seq<Act>, current: nat, p: Push) {
    match p
    case EventPush(queue, tx, event, checkedWith) =>
      && event.epoch == Some(checkedWith.epoch) && checkedWith.epoch <= current && valid(event, checkedWith)
      && (if queue.BufferedQueue? then KeptChannel(acts, RoundManager, Some(tx), checkedWith)
          else tx == Channel(checkedWith))
    case RpcPush(tx, q, checkedIn) =>
      && (q.epoch.Some? ==> q.epoch.value == checkedIn.epoch) && checkedIn.epoch <= current
      && (if q.kind.DagRequest? then KeptChannel(acts, DagBootstrapper, Some(tx), checkedIn)
          else tx == Channel(checkedIn))
    case TimeoutPush(_, _) => true
  }

  /** No proof sent reaches past the sender's epoch. */
  predicate PacketOk(current: nat, p: Packet) {
    p.msg.ProofMsg? ==>
      forall i :: 0 <= i < |p.msg.proof.infos| ==> p.msg.proof.infos[i].info.epoch < current
  }

  ghost predicate LogsOk(env: Env, w: World, current: nat) {
    && (forall i :: 0 <= i < |w.tasks| ==> TaskOk(w.acts, current, w.tasks[i]))
    && (forall i :: 0 <= i < |w.pushes| ==> PushOk(env.valid, w.acts, current, w.pushes[i]))
    && (forall i :: 0 <= i < |w.outbox| ==> PacketOk(current, w.outbox[i]))
  }

  ghost predicate Inv(env: Env, w: World) {
    ManagerOk(env.h, w) && OneProcessor(w) && LogsOk(env, w, w.m.epochState.value.epoch)
  }

  // ---------------------------------------------------------------------------------------------
  // Changing epoch
  // ---------------------------------------------------------------------------------------------

  /** What stop and start add to the record. */
  function Turnover(p: Processor, q: Processor): seq<Act> {
    [Acked(p), Spawned(q)]
  }

  lemma BeganAfter(acts: seq<Act>, p: Processor, q: Processor, kind: ProcessorKind, epoch: nat)
    ensures Began(acts + Turnover(p, q), kind, epoch) <==> Began(acts, kind, epoch) || q == Processor(kind, epoch)
  {
    var after := acts + Turnover(p, q);
    assert after[|acts| + 1] == Spawned(q);
    if Began(acts, kind, epoch) {
      var k :| 0 <= k < |acts| && acts[k] == Spawned(Processor(kind, epoch));
      assert after[k] == acts[k];
    }
  }

  lemma BeganByAfter(acts: seq<Act>, p: Processor, q: Processor, kind: ProcessorKind, epoch: nat)
    ensures BeganBy(acts + Turnover(p, q), kind, epoch) <==>
            BeganBy(acts, kind, epoch) || (q.kind == kind && q.epoch <= epoch)
  {
    var after := acts + Turnover(p, q);
    if e: nat :| e <= epoch && Began(after, kind, e) { BeganAfter(acts, p, q, kind, e); }
    if e: nat :| e <= epoch && Began(acts, kind, e) { BeganAfter(acts, p, q, kind, e); }
    BeganAfter(acts, p, q, kind, q.epoch);
  }

  lemma FlagAfter(acts: seq<Act>, p: Processor, q: Processor)
    ensures LastWasRecovery(acts + Turnover(p, q)) ==
            if q.kind.DagBootstrapper? then LastWasRecovery(acts) else q.kind.RecoveryManager?
  {
    var after := acts + Turnover(p, q);
    assert after[..|after| - 1] == acts + [Acked(p)] && (acts + [Acked(p)])[..|acts|] == acts;
  }

  lemma KeptAfter(acts: seq<Act>, p: Processor, q: Processor, kind: ProcessorKind, tx: Option<Channel>, s: EpochState)
    requires KeptChannel(acts, kind, tx, s) && s.epoch < q.epoch
    ensures KeptChannel(acts + Turnover(p, q), kind, tx, s)
  {
    BeganAfter(acts, p, q, kind, s.epoch);
    BeganByAfter(acts, p, q, kind, s.epoch);
  }

  lemma TaskAfter(acts: seq<Act>, p: Processor, q: Processor, current: nat, t: Task)
    requires TaskOk(acts, current, t) && current < q.epoch
    ensures TaskOk(acts + Turnover(p, q), q.epoch, t)
  {
    BeganAfter(acts, p, q, DagBootstrapper, t.state.epoch);
    KeptAfter(acts, p, q, RoundManager, t.bufferedTx, t.state);
  }

  lemma PushAfter(valid: (Event, EpochState) -> bool, acts: seq<Act>, p: Processor, q: Processor, current: nat, x: Push)
    requires PushOk(valid, acts, current, x) && current < q.epoch
    ensures PushOk(valid, acts + Turnover(p, q), q.epoch, x)
  {
    match x
    case EventPush(queue, tx, event, s) =>
      if queue.BufferedQueue? { KeptAfter(acts, p, q, RoundManager, Some(tx), s); }
    case RpcPush(tx, rpc, s) =>
      if rpc.kind.DagRequest? { KeptAfter(acts, p, q, DagBootstrapper, Some(tx), s); }
    case TimeoutPush(_, _) =>
  }

  lemma ActsAfter(w: World, r: Reconfig)
    requires OneProcessor(w)
    ensures var p := w.acts[|w.acts| - 1].processor;
            StartNewEpoch(Shutdown(w).(pendingBlocks := {}), r).acts == w.acts + Turnover(p, ProcessorOf(r))
  {
    var p := w.acts[|w.acts| - 1].processor;
    assert Shutdown(w).acts == w.acts + [Acked(p)];
  }

  lemma LogsAfter(env: Env, w: World, w': World, p: Processor, q: Processor, current: nat)
    requires LogsOk(env, w, current) && current < q.epoch
    requires w'.acts == w.acts + Turnover(p, q)
    requires w'.tasks == w.tasks && w'.pushes == w.pushes && w'.outbox == w.outbox
    ensures LogsOk(env, w', q.epoch)
  {
    forall i | 0 <= i < |w.tasks| ensures TaskOk(w'.acts, q.epoch, w.tasks[i]) {
      TaskAfter(w.acts, p, q, current, w.tasks[i]);
    }
    forall i | 0 <= i < |w.pushes| ensures PushOk(env.valid, w'.acts, q.epoch, w.pushes[i]) {
      PushAfter(env.valid, w.acts, p, q, current, w.pushes[i]);
    }
    forall i | 0 <= i < |w.outbox| ensures PacketOk(q.epoch, w.outbox[i]) {
      assert PacketOk(current, w.outbox[i]);
    }
  }

  lemma TurnoverAlternates(acts: seq<Act>, p: Processor, q: Processor)
    requires Alternating(acts) && |acts| % 2 == 1 && acts[|acts| - 1].processor == p
    ensures Alternating(acts + Turnover(p, q))
  {
    var after := acts + Turnover(p, q);
    forall k: nat | k < |after| ensures TurnAt(after, k) {
      if k < |acts| { assert TurnAt(acts, k); }
    }
  }

  lemma TurnoverBelow(acts: seq<Act>, p: Processor, q: Processor, current: nat)
    requires EpochsBelow(acts, current) && p.epoch <= current < q.epoch
    ensures EpochsBelow(acts + Turnover(p, q), q.epoch)
  {
  }

  lemma HandlesAfter(w: World, r: Reconfig)
    ensures var m := StartNewEpoch(Shutdown(w).(pendingBlocks := {}), r).m;
            && m.epochState == Some(r.state)
            && m.roundManagerCloseTx == (if r.dag then None else Some(ProcessorOf(r)))
            && m.dagShutdownTx == (if r.dag then Some(ProcessorOf(r)) else None)
  {
  }

  /** A manager that holds the handle of the processor spawned last. */
  lemma HoldsLast(w: World, acts: seq<Act>, q: Processor)
    requires w.acts == acts + [Spawned(q)] && Alternating(w.acts) && |acts| % 2 == 0 && EpochsBelow(w.acts, q.epoch)
    requires w.m.epochState.Some? && w.m.epochState.value.epoch == q.epoch
    requires w.m.roundManagerCloseTx == (if q.kind.DagBootstrapper? then None else Some(q))
    requires w.m.dagShutdownTx == (if q.kind.DagBootstrapper? then Some(q) else None)
    ensures OneProcessor(w)
  {
  }

  lemma ProcessorAfter(w: World, w': World, r: Reconfig)
    requires OneProcessor(w) && w.m.epochState.value.epoch < r.state.epoch
    requires w' == StartNewEpoch(Shutdown(w).(pendingBlocks := {}), r)
    ensures OneProcessor(w')
  {
    var p, q := w.acts[|w.acts| - 1].processor, ProcessorOf(r);
    ActsAfter(w, r);
    TurnoverAlternates(w.acts, p, q);
    TurnoverBelow(w.acts, p, q, w.m.epochState.value.epoch);
    HandlesAfter(w, r);
    assert w.acts + Turnover(p, q) == w.acts + [Acked(p)] + [Spawned(q)];
    HoldsLast(w', w.acts + [Acked(p)], q);
  }

  lemma NotYetBegan(acts: seq<Act>, kind: ProcessorKind, epoch: nat, current: nat)
    requires EpochsBelow(acts, current) && current < epoch
    ensures !Began(acts, kind, epoch)
  {
  }

  /** A kept channel over a change of epoch: replaced by its own kind of start, stale after any other. */
  lemma KeptOver(acts: seq<Act>, p: Processor, r: Reconfig, kind: ProcessorKind, tx: Option<Channel>, s: EpochState)
    requires KeptChannel(acts, kind, tx, s) && EpochsBelow(acts, s.epoch) && s.epoch < r.state.epoch
    ensures KeptChannel(acts + Turnover(p, ProcessorOf(r)), kind,
                        if ProcessorOf(r).kind == kind then Some(Channel(r.state)) else tx, r.state)
  {
    NotYetBegan(acts, kind, r.state.epoch, s.epoch);
    BeganAfter(acts, p, ProcessorOf(r), kind, r.state.epoch);
    BeganByAfter(acts, p, ProcessorOf(r), kind, r.state.epoch);
    BeganByStays(acts, kind, s.epoch, r.state.epoch);
  }

  lemma BeganByStays(acts: seq<Act>, kind: ProcessorKind, current: nat, epoch: nat)
    requires EpochsBelow(acts, current) && current <= epoch
    ensures BeganBy(acts, kind, epoch) <==> BeganBy(acts, kind, current)
  {
    if e: nat :| e <= epoch && Began(acts, kind, e) {
      if e > current { NotYetBegan(acts, kind, e, current); }
    }
  }

  lemma ManagerAfter(h: History, w: World, w': World, r: Reconfig)
    requires ManagerOk(h, w) && OneProcessor(w) && w.m.epochState.value.epoch < r.state.epoch
    requires r.state == StateOf(h, r.state.epoch)
    requires w' == StartNewEpoch(Shutdown(w).(pendingBlocks := {}), r)
    ensures ManagerOk(h, w')
  {
    ActsAfter(w, r);
    var p, s := w.acts[|w.acts| - 1].processor, w.m.epochState.value;
    KeptOver(w.acts, p, r, RoundManager, w.m.bufferedProposalTx, s);
    KeptOver(w.acts, p, r, DagBootstrapper, w.m.dagRpcTx, s);
    FlagAfter(w.acts, p, ProcessorOf(r));
    NotYetBegan(w.acts, DagBootstrapper, r.state.epoch, s.epoch);
    BeganAfter(w.acts, p, ProcessorOf(r), DagBootstrapper, r.state.epoch);
  }

  /** A verified proof leads to a later, real epoch. */
  lemma MovesForward(h: History, w: World, msg: Message)
    requires ManagerOk(h, w) && Moves(w, msg) && GenuineProof(h, msg.proof)
    ensures var next := VerifyResult(msg.proof, TrustEpoch(w.m.epochState.value)).value.next;
            && next.Some? && next.value == StateOf(h, next.value.epoch)
            && w.m.epochState.value.epoch < next.value.epoch
  {
    VerifiedProofAgrees(h, TrustEpoch(w.m.epochState.value), msg.proof);
  }

  lemma MoveKeepsInv(env: Env, w: World, step: Step)
    requires Inv(env, w) && Enabled(env, w, step) && step.Deliver? && Moves(w, step.msg)
    ensures Apply(env, w, step) == StartNewEpoch(Shutdown(w).(pendingBlocks := {}), step.r)
    ensures Inv(env, Apply(env, w, step))
    ensures w.m.epochState.value.epoch < step.r.state.epoch
  {
    MovesForward(env.h, w, step.msg);
    var w' := StartNewEpoch(Shutdown(w).(pendingBlocks := {}), step.r);
    ManagerAfter(env.h, w, w', step.r);
    ProcessorAfter(w, w', step.r);
    ActsAfter(w, step.r);
    LogsAfter(env, w, w', w.acts[|w.acts| - 1].processor, ProcessorOf(step.r), w.m.epochState.value.epoch);
  }

  // ---------------------------------------------------------------------------------------------
  // Everything else
  // ---------------------------------------------------------------------------------------------

  /** A step that stays in its epoch adds at most one packet, task or push. */
  ghost predicate Stays(env: Env, w: World, w': World)
    requires w.m.epochState.Some?
  {
    || w' == w
    || (exists p: Packet :: w' == w.(outbox := w.outbox + [p]) && PacketOk(w.m.epochState.value.epoch, p))
    || (exists e: Event :: w' == w.(tasks := w.tasks + [TaskFor(w.m, e)])
                           && e.epoch == Some(w.m.epochState.value.epoch) && Admits(w.m, e) == Ok(true))
  }

  lemma RetrievedIsPast(h: History, w: World, db: EpochDb, start: nat, end: nat, peer: Author, current: nat)
    requires RealEndings(h, db.endings) && end <= current
    ensures var w' := Retrieve(w, db, start, end, peer).0;
            w' == w || exists p: Packet :: w' == w.(outbox := w.outbox + [p]) && PacketOk(current, p)
  {
    var proof := EpochEndings(db, start, end);
    if proof.Ok? {
      var p := Packet(peer, ProofMsg(proof.value));
      forall i | 0 <= i < |proof.value.infos| ensures proof.value.infos[i].info.epoch < current {
        assert proof.value.infos[i] == db.endings[start + i] && RealEnding(h, db.endings, start + i);
      }
      assert PacketOk(current, p);
    }
  }

  lemma DifferentStays(env: Env, w: World, db: EpochDb, other: nat, peer: Author)
    requires w.m.epochState.Some? && RealEndings(env.h, db.endings)
    ensures Stays(env, w, DifferentEpoch(env.cfg, w, db, other, peer).0)
  {
    var mine := w.m.epochState.value.epoch;
    RetrievedIsPast(env.h, w, db, other, mine, peer, mine);
    assert PacketOk(mine, Packet(peer, RetrievalMsg(mine, other)));
  }

  lemma CheckStays(env: Env, w: World, step: Step)
    requires Enabled(env, w, step) && step.Deliver? && !Moves(w, step.msg)
    ensures Stays(env, w, Process(env.cfg, w, step.db, step.peer, step.msg, step.r).0)
  {
    var mine := w.m.epochState.value.epoch;
    match step.msg
    case EventMsg(event) =>
      if event.epoch.Some? && event.epoch.value != mine {
        DifferentStays(env, w, step.db, event.epoch.value, step.peer);
      }
    case RetrievalMsg(start, end) =>
      if end <= mine { RetrievedIsPast(env.h, w, step.db, start, end, step.peer, mine); }
    case ProofMsg(proof) =>
    case OtherMsg =>
  }

  lemma StaysKeepsInv(env: Env, w: World, w': World)
    requires Inv(env, w) && Stays(env, w, w')
    ensures Inv(env, w') && w'.m == w.m
  {
  }

  lemma PushFromTask(valid: (Event, EpochState) -> bool, acts: seq<Act>, current: nat, t: Task)
    requires TaskOk(acts, current, t) && valid(t.event, t.state) && TargetOf(t).1.Some?
    ensures PushOk(valid, acts, current, EventPush(TargetOf(t).0, TargetOf(t).1.value, t.event, t.state))
  {
  }

  lemma PushesStay(env: Env, w: World, w': World, p: Push, current: nat)
    requires LogsOk(env, w, current) && PushOk(env.valid, w.acts, current, p)
    requires w'.acts == w.acts && w'.pushes == w.pushes + [p]
    ensures forall j :: 0 <= j < |w'.pushes| ==> PushOk(env.valid, w'.acts, current, w'.pushes[j])
  {
    forall j | 0 <= j < |w'.pushes| ensures PushOk(env.valid, w'.acts, current, w'.pushes[j]) {
      if j < |w.pushes| { assert w'.pushes[j] == w.pushes[j]; }
    }
  }

  /** Whatever the captured channels have become, a finished task pushes only where it was checked for. */
  lemma FinishKeepsInv(env: Env, w: World, i: nat)
    requires Inv(env, w) && i < |w.tasks|
    ensures var w' := Finish(w, i, env.valid(w.tasks[i].event, w.tasks[i].state));
            Inv(env, w') && w'.m == w.m
  {
    var t, current := w.tasks[i], w.m.epochState.value.epoch;
    var w' := Finish(w, i, env.valid(t.event, t.state));
    assert TaskOk(w.acts, current, t);
    forall j | 0 <= j < |w'.tasks| ensures TaskOk(w.acts, current, w'.tasks[j]) {
      assert w'.tasks[j] == w.tasks[if j < i then j else j + 1];
    }
    if env.valid(t.event, t.state) && TargetOf(t).1.Some? {
      PushFromTask(env.valid, w.acts, current, t);
      PushesStay(env, w, w', EventPush(TargetOf(t).0, TargetOf(t).1.value, t.event, t.state), current);
    }
  }

  lemma RpcKeepsInv(env: Env, w: World, db: EpochDb, peer: Author, q: Rpc)
    requires Inv(env, w) && RealEndings(env.h, db.endings)
    ensures var w' := ProcessRpc(env.cfg, w, db, peer, q).0;
            Inv(env, w') && w'.m == w.m
  {
    var w' := ProcessRpc(env.cfg, w, db, peer, q).0;
    var mine := w.m.epochState.value;
    if q.epoch.Some? && q.epoch.value != mine.epoch {
      DifferentStays(env, w, db, q.epoch.value, peer);
      StaysKeepsInv(env, w, w');
    } else if (q.epoch.Some? || q.kind.BlockRetrieval?) && RpcTarget(w.m, q.kind).Some? {
      PushesStay(env, w, w', RpcPush(RpcTarget(w.m, q.kind).value, q, mine), mine.epoch);
    }
  }

  lemma TimeoutKeepsInv(env: Env, w: World, round: nat)
    requires Inv(env, w)
    ensures Inv(env, LocalTimeout(w, round)) && LocalTimeout(w, round).m == w.m
  {
    if w.m.roundManagerTx.Some? {
      PushesStay(env, w, LocalTimeout(w, round), TimeoutPush(w.m.roundManagerTx.value, round),
                 w.m.epochState.value.epoch);
    }
  }

  ghost predicate Switches(w: World, step: Step) {
    step.Deliver? && Moves(w, step.msg)
  }

  /**
   A step changes epoch exactly when it delivers a verified proof that begins at the current epoch, and then to
   a later one; otherwise no field of the manager changes.
   */
  lemma StepKeepsInv(env: Env, w: World, step: Step)
    requires Inv(env, w) && Enabled(env, w, step)
    ensures Inv(env, Apply(env, w, step))
    ensures if Switches(w, step) then w.m.epochState.value.epoch < Apply(env, w, step).m.epochState.value.epoch
            else Apply(env, w, step).m == w.m
  {
    match step
    case Deliver(db, peer, msg, r) =>
      if Moves(w, msg) {
        MoveKeepsInv(env, w, step);
      } else {
        CheckStays(env, w, step);
        StaysKeepsInv(env, w, Apply(env, w, step));
      }
    case TaskEnds(i) => FinishKeepsInv(env, w, i);
    case RpcArrives(db, peer, q) => RpcKeepsInv(env, w, db, peer, q);
    case TimerFires(round) => TimeoutKeepsInv(env, w, round);
  }

  lemma FirstStart(env: Env, r: Reconfig)
    requires r.state == StateOf(env.h, r.state.epoch)
    ensures Inv(env, StartNewEpoch(Fresh(), r))
  {
    var w := StartNewEpoch(Fresh(), r);
    assert w.acts == [Spawned(ProcessorOf(r))] && w.acts[..0] == [];
    assert forall kind :: BeganBy(w.acts, kind, r.state.epoch) <==> Began(w.acts, kind, r.state.epoch);
  }

  lemma {:induction false} RunKeepsInv(env: Env, ws: seq<World>, steps: seq<Step>, k: nat)
    requires Run(env, ws, steps) && k < |ws|
    ensures Inv(env, ws[k])
    decreases k
  {
    if k == 0 {
      var r: Reconfig :| r.state == StateOf(env.h, r.state.epoch) && ws[0] == StartNewEpoch(Fresh(), r);
      FirstStart(env, r);
    } else {
      RunKeepsInv(env, ws, steps, k - 1);
      assert Next(env, ws[k - 1], steps[k - 1], ws[k]);
      StepKeepsInv(env, ws[k - 1], steps[k - 1]);
    }
  }

  // ---------------------------------------------------------------------------------------------
  // What holds of every run
  // ---------------------------------------------------------------------------------------------

  /**
   Every network event that reaches a round manager, recovery manager or quorum store was made for, and checked
   against, the epoch that its channel was created in.
   */
  lemma EventsStayInTheirEpoch(env: Env, ws: seq<World>, steps: seq<Step>, k: nat, i: nat)
    requires Run(env, ws, steps) && k < |ws| && i < |ws[k].pushes|
    requires ws[k].pushes[i].EventPush? && !ws[k].pushes[i].queue.BufferedQueue?
    ensures var p := ws[k].pushes[i];
            && p.event.epoch == Some(p.tx.made.epoch)
            && p.checkedWith == p.tx.made && env.valid(p.event, p.tx.made)
  {
    RunKeepsInv(env, ws, steps, k);
    assert PushOk(env.valid, ws[k].acts, ws[k].m.epochState.value.epoch, ws[k].pushes[i]);
  }

  /** For proposals this holds exactly when the epoch of the event began with a round manager. */
  lemma ProposalsStayIfRoundManaged(env: Env, ws: seq<World>, steps: seq<Step>, k: nat, i: nat)
    requires Run(env, ws, steps) && k < |ws| && i < |ws[k].pushes|
    requires ws[k].pushes[i].EventPush? && ws[k].pushes[i].queue.BufferedQueue?
    ensures var p := ws[k].pushes[i];
            && p.event.epoch == Some(p.checkedWith.epoch) && env.valid(p.event, p.checkedWith)
            && (p.tx.made == p.checkedWith <==> Began(ws[k].acts, RoundManager, p.checkedWith.epoch))
            && (p.tx.made != p.checkedWith ==> p.tx.made.epoch < p.checkedWith.epoch)
  {
    RunKeepsInv(env, ws, steps, k);
    assert PushOk(env.valid, ws[k].acts, ws[k].m.epochState.value.epoch, ws[k].pushes[i]);
  }

  /** Requests that name an epoch reach a channel of it, those to the DAG exactly when the epoch began with one. */
  lemma RequestsStayInTheirEpoch(env: Env, ws: seq<World>, steps: seq<Step>, k: nat, i: nat)
    requires Run(env, ws, steps) && k < |ws| && i < |ws[k].pushes| && ws[k].pushes[i].RpcPush?
    ensures var p := ws[k].pushes[i];
            && (p.rpc.epoch.Some? ==> p.rpc.epoch.value == p.checkedIn.epoch)
            && (p.rpcTx == Channel(p.checkedIn) <==>
                p.rpc.kind.DagRequest? ==> Began(ws[k].acts, DagBootstrapper, p.checkedIn.epoch))
  {
    RunKeepsInv(env, ws, steps, k);
    assert PushOk(env.valid, ws[k].acts, ws[k].m.epochState.value.epoch, ws[k].pushes[i]);
  }

  /**
   A verified event finds no sender exactly if it is a proposal and no round manager has begun by its epoch, or another
   event for a round manager and its epoch runs the DAG. Quorum store events that are admitted always find one.
   */
  lemma EventsFindASender(env: Env, ws: seq<World>, steps: seq<Step>, k: nat, i: nat)
    requires Run(env, ws, steps) && k < |ws| && i < |ws[k].tasks|
    ensures var t := ws[k].tasks[i];
            TargetOf(t).1.Some? <==>
            (IsQuorumStoreKind(t.event.kind)
             || (if IsProposalKind(t.event.kind) then BeganBy(ws[k].acts, RoundManager, t.state.epoch)
                 else !Began(ws[k].acts, DagBootstrapper, t.state.epoch)))
  {
    RunKeepsInv(env, ws, steps, k);
    assert TaskOk(ws[k].acts, ws[k].m.epochState.value.epoch, ws[k].tasks[i]);
  }

  /**
   With the quorum store off, its messages of the current epoch are dropped silently if the last start that was not a
   DAG was a recovery, and refused otherwise.
   */
  lemma DisabledQuorumStore(env: Env, ws: seq<World>, steps: seq<Step>, k: nat, db: EpochDb, peer: Author, e: Event,
                            r: Reconfig)
    requires Run(env, ws, steps) && k < |ws| && !ws[k].m.quorumStoreEnabled && ws[k].m.epochState.Some?
    requires IsQuorumStoreKind(e.kind) && e.epoch == Some(ws[k].m.epochState.value.epoch)
    ensures Process(env.cfg, ws[k], db, peer, EventMsg(e), r)
            == (ws[k], if LastWasRecovery(ws[k].acts) then Ok(()) else Err(QuorumStoreDisabled))
  {
    RunKeepsInv(env, ws, steps, k);
  }

  /**
   At every moment of every run at most one consensus processor runs, none is spawned before the previous one
   acknowledged its end, and between steps exactly one runs, in the current epoch. Channels dropped by shutdown
   are empty or of the current epoch.
   */
  lemma OneProcessorAtATime(env: Env, ws: seq<World>, steps: seq<Step>, k: nat)
    requires Run(env, ws, steps) && k < |ws|
    ensures forall j :: 0 <= j <= |ws[k].acts| ==> |Live(ws[k].acts[..j])| <= 1
    ensures forall j :: 0 <= j < |ws[k].acts| && ws[k].acts[j].Spawned? ==> Live(ws[k].acts[..j]) == {}
    ensures ws[k].m.epochState.Some?
    ensures exists kind :: Live(ws[k].acts) == {Processor(kind, ws[k].m.epochState.value.epoch)}
    ensures var m, s := ws[k].m, ws[k].m.epochState.value;
            && NoneOr(m.roundManagerTx, s) && NoneOr(m.blockRetrievalTx, s) && NoneOr(m.batchRetrievalTx, s)
            && NoneOr(m.quorumStoreCoordinatorTx, s) && NoneOr(m.randManagerMsgTx, s)
  {
    RunKeepsInv(env, ws, steps, k);
    var acts := ws[k].acts;
    forall j | 0 <= j <= |acts|
      ensures |Live(acts[..j])| <= 1 && (j < |acts| && acts[j].Spawned? ==> Live(acts[..j]) == {})
    {
      PrefixAlternates(acts, j);
      AlternatingLive(acts[..j]);
      if j < |acts| { assert TurnAt(acts, j); }
    }
    AlternatingLive(acts);
    var p := acts[|acts| - 1].processor;
    assert p == Processor(p.kind, ws[k].m.epochState.value.epoch);
  }

  ghost function EpochAt(w: World): nat {
    if w.m.epochState.Some? then w.m.epochState.value.epoch else 0
  }

  lemma {:induction false} EpochsGrow(env: Env, ws: seq<World>, steps: seq<Step>, i: nat, j: nat)
    requires Run(env, ws, steps) && i <= j < |ws|
    ensures EpochAt(ws[i]) <= EpochAt(ws[j])
    ensures i < j && Switches(ws[i], steps[i]) ==> EpochAt(ws[i]) < EpochAt(ws[j])
    decreases j - i
  {
    if i < j {
      RunKeepsInv(env, ws, steps, i);
      assert Next(env, ws[i], steps[i], ws[i + 1]);
      StepKeepsInv(env, ws[i], steps[i]);
      EpochsGrow(env, ws, steps, i + 1, j);
    }
  }

  /**
   The epoch never goes back; a step changes it exactly when it delivers a verified proof beginning at the current
   epoch; and an epoch is left at most once, whatever proofs are repeated.
   */
  lemma EpochsAreLeftOnce(env: Env, ws: seq<World>, steps: seq<Step>, i: nat, j: nat)
    requires Run(env, ws, steps) && i < j < |steps|
    ensures EpochAt(ws[i]) <= EpochAt(ws[j])
    ensures EpochAt(ws[i]) != EpochAt(ws[i + 1]) <==> Switches(ws[i], steps[i])
    ensures Switches(ws[i], steps[i]) && Switches(ws[j], steps[j]) ==> EpochAt(ws[i]) != EpochAt(ws[j])
  {
    EpochsGrow(env, ws, steps, i, j);
    RunKeepsInv(env, ws, steps, i);
    assert Next(env, ws[i], steps[i], ws[i + 1]);
    StepKeepsInv(env, ws[i], steps[i]);
  }

  /** Whatever is asked, a proof sent ends no later than the epoch its sender is in. */
  lemma ProofsEndInOwnEpoch(env: Env, ws: seq<World>, steps: seq<Step>, k: nat, i: nat, e: nat)
    requires Run(env, ws, steps) && k < |ws| && i < |ws[k].outbox| && ws[k].outbox[i].msg.ProofMsg?
    requires e < |ws[k].outbox[i].msg.proof.infos|
    ensures ws[k].outbox[i].msg.proof.infos[e].info.epoch + 1 <= EpochAt(ws[k])
  {
    RunKeepsInv(env, ws, steps, k);
    assert PacketOk(EpochAt(ws[k]), ws[k].outbox[i]);
  }

  /** A proof that fails verification changes nothing at all. */
  lemma BadProofChangesNothing(cfg: Settings, w: World, db: EpochDb, peer: Author, proof: EpochChangeProof, r: Reconfig)
    requires w.m.epochState.Some? && !Moves(w, ProofMsg(proof))
    ensures Process(cfg, w, db, peer, ProofMsg(proof), r).0 == w
  {
  }

  // ---------------------------------------------------------------------------------------------
  // Pending blocks
  // ---------------------------------------------------------------------------------------------

  /** The step finishes the verification of a valid proposal `b`, which then becomes pending. */
  ghost predicate Adds(env: Env, w: World, step: Step, b: Event) {
    && step.TaskEnds? && step.i < |w.tasks|
    && var t := w.tasks[step.i];
       b == t.event && t.event.kind.ProposalMsg? && env.valid(t.event, t.state)
  }

  /** A valid proposal finishes verification after its epoch was left. */
  ghost predicate FinishesLate(env: Env, w: World, step: Step) {
    exists b :: Adds(env, w, step, b) && w.tasks[step.i].state.epoch < EpochAt(w)
  }

  /** Step `j`, of the epoch that `ws[k]` is in, added `b`. */
  ghost predicate AddedAt(env: Env, ws: seq<World>, steps: seq<Step>, k: nat, j: nat, b: Event)
    requires k < |ws| && |ws| == |steps| + 1 && j < k
  {
    EpochAt(ws[j]) == EpochAt(ws[k]) && Adds(env, ws[j], steps[j], b)
  }

  ghost predicate AddedBy(env: Env, ws: seq<World>, steps: seq<Step>, k: nat, b: Event)
    requires k < |ws| && |ws| == |steps| + 1
  {
    exists j: nat :: j < k && AddedAt(env, ws, steps, k, j, b)
  }

  lemma PendingAfter(env: Env, w: World, step: Step, b: Event)
    requires Inv(env, w) && Enabled(env, w, step)
    ensures b in Apply(env, w, step).pendingBlocks <==>
            !Switches(w, step) && (b in w.pendingBlocks || Adds(env, w, step, b))
  {
    if step.Deliver? {
      if Moves(w, step.msg) { MoveKeepsInv(env, w, step); } else { CheckStays(env, w, step); }
    }
  }

  /** The pending blocks are the valid proposals whose verification finished since the epoch began. */
  lemma {:induction false} PendingBlocksAre(env: Env, ws: seq<World>, steps: seq<Step>, k: nat, b: Event)
    requires Run(env, ws, steps) && k < |ws|
    ensures b in ws[k].pendingBlocks <==> AddedBy(env, ws, steps, k, b)
    decreases k
  {
    if k > 0 {
      PendingBlocksAre(env, ws, steps, k - 1, b);
      RunKeepsInv(env, ws, steps, k - 1);
      assert Next(env, ws[k - 1], steps[k - 1], ws[k]);
      PendingAfter(env, ws[k - 1], steps[k - 1], b);
      StepKeepsInv(env, ws[k - 1], steps[k - 1]);
      if Switches(ws[k - 1], steps[k - 1]) {
        forall j: nat | j < k ensures !AddedAt(env, ws, steps, k, j, b) { EpochsGrow(env, ws, steps, j, k - 1); }
      } else {
        SinceTheSame(env, ws, steps, k - 1, b);
      }
    }
  }

  /** In one epoch: what was added up to one step more. */
  lemma SinceTheSame(env: Env, ws: seq<World>, steps: seq<Step>, k: nat, b: Event)
    requires k + 1 < |ws| && |ws| == |steps| + 1 && EpochAt(ws[k]) == EpochAt(ws[k + 1])
    ensures AddedBy(env, ws, steps, k + 1, b) <==> AddedBy(env, ws, steps, k, b) || Adds(env, ws[k], steps[k], b)
  {
    if AddedBy(env, ws, steps, k, b) {
      var j: nat :| j < k && AddedAt(env, ws, steps, k, j, b);
      assert AddedAt(env, ws, steps, k + 1, j, b);
    }
    if Adds(env, ws[k], steps[k], b) { assert AddedAt(env, ws, steps, k + 1, k, b); }
    if AddedBy(env, ws, steps, k + 1, b) {
      var j: nat :| j < k + 1 && AddedAt(env, ws, steps, k + 1, j, b);
      assert j == k || AddedAt(env, ws, steps, k, j, b);
    }
  }

  /** What a step adds is of the current epoch unless it finishes late. */
  lemma AddsOfEpoch(env: Env, w: World, step: Step, b: Event)
    requires Inv(env, w) && Adds(env, w, step, b)
    ensures b.epoch == Some(EpochAt(w)) <==> !FinishesLate(env, w, step)
  {
    assert TaskOk(w.acts, EpochAt(w), w.tasks[step.i]);
  }

  ghost predicate LateAt(env: Env, ws: seq<World>, steps: seq<Step>, k: nat, j: nat)
    requires k < |ws| && |ws| == |steps| + 1 && j < k
  {
    EpochAt(ws[j]) == EpochAt(ws[k]) && FinishesLate(env, ws[j], steps[j])
  }

  /**
   At every moment of every run the pending blocks are all of the current epoch if and only if, since that epoch began,
   no valid proposal of an earlier epoch finished its verification.
   */
  lemma PendingBlocksStayCurrent(env: Env, ws: seq<World>, steps: seq<Step>, k: nat)
    requires Run(env, ws, steps) && k < |ws|
    ensures (forall b :: b in ws[k].pendingBlocks ==> b.epoch == Some(EpochAt(ws[k]))) <==>
            !exists j: nat :: j < k && LateAt(env, ws, steps, k, j)
  {
    forall b ensures b in ws[k].pendingBlocks <==> AddedBy(env, ws, steps, k, b) {
      PendingBlocksAre(env, ws, steps, k, b);
    }
    forall j: nat, b | j < k && AddedAt(env, ws, steps, k, j, b)
      ensures b.epoch == Some(EpochAt(ws[k])) <==> !LateAt(env, ws, steps, k, j)
    {
      RunKeepsInv(env, ws, steps, j);
      AddsOfEpoch(env, ws[j], steps[j], b);
    }
    if j: nat :| j < k && LateAt(env, ws, steps, k, j) {
      var b :| Adds(env, ws[j], steps[j], b);
      assert AddedAt(env, ws, steps, k, j, b);
    }
  }
}
