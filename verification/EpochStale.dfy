/**
 Runs in which an epoch manager mixes epochs: a channel that shutdown leaves alone is used in a later epoch, and a
 verification that ends late leaves a block of an earlier epoch pending. Each run is driven by a genuine change proof.
 */
module EpochStale {
  import opened Wrappers
  import opened Quorum
  import opened EpochChange
  import opened EpochManager
  import opened EpochIsolation
  import opened EpochCatchUp

  /** The proof that epoch `e` ended. */
  function EndOfEpoch(db: EpochDb, e: nat): EpochChangeProof
    requires e < |db.endings|
  {
    EpochChangeProof(db.endings[e..e + 1], false)
  }

  function Delivers(db: EpochDb, peer: Author, e: nat, r: Reconfig): Step
    requires e < |db.endings|
  {
    Deliver(db, peer, ProofMsg(EndOfEpoch(db, e)), r)
  }

  /** In epoch `e` the proof that ends it can be delivered, and starts the next. */
  lemma ProofMoves(env: Env, w: World, db: EpochDb, peer: Author, e: nat, r: Reconfig)
    requires RealEndings(env.h, db.endings) && e < |db.endings|
    requires w.m.epochState == Some(StateOf(env.h, e)) && r.state == StateOf(env.h, e + 1)
    ensures Enabled(env, w, Delivers(db, peer, e, r))
    ensures Apply(env, w, Delivers(db, peer, e, r)) == StartNewEpoch(Shutdown(w).(pendingBlocks := {}), r)
  {
    PageIsGenuine(env.h, db, e, e + 1, false);
    PageVerifies(env.h, db, e, e + 1, false);
    assert RealEnding(env.h, db.endings, e);
  }

  /** A proposal of the current epoch is captured for verification. */
  lemma Captured(env: Env, w: World, db: EpochDb, peer: Author, event: Event, r: Reconfig)
    requires RealEndings(env.h, db.endings) && w.m.epochState.Some? && event.kind.ProposalMsg?
    requires event.epoch == Some(w.m.epochState.value.epoch)
    ensures Enabled(env, w, Deliver(db, peer, EventMsg(event), r))
    ensures Apply(env, w, Deliver(db, peer, EventMsg(event), r)) == w.(tasks := w.tasks + [TaskFor(w.m, event)])
  {
  }

  lemma ThreeSteps(env: Env, r: Reconfig, ws: seq<World>, steps: seq<Step>)
    requires |ws| == 4 && |steps| == 3 && r.state == StateOf(env.h, r.state.epoch) && ws[0] == StartNewEpoch(Fresh(), r)
    requires Next(env, ws[0], steps[0], ws[1]) && Next(env, ws[1], steps[1], ws[2]) && Next(env, ws[2], steps[2], ws[3])
    ensures Run(env, ws, steps)
  {
  }

  /** An epoch begun by a recovery manager pushes its proposals into the channel of the round manager before it. */
  lemma StaleProposalChannel(env: Env, db: EpochDb, e: nat, peer: Author, id: nat)
    requires RealEndings(env.h, db.endings) && e < |db.endings|
    requires env.valid(Event(ProposalMsg, Some(e + 1), id), StateOf(env.h, e + 1))
    ensures exists ws: seq<World>, steps: seq<Step> ::
              && Run(env, ws, steps)
              && EpochAt(ws[|steps|]) == e + 1
              && ws[|steps|].pushes
                 == [EventPush(BufferedQueue, Channel(StateOf(env.h, e)), Event(ProposalMsg, Some(e + 1), id),
                               StateOf(env.h, e + 1))]
  {
    var first := Reconfig(StateOf(env.h, e), true, false, false);
    var r := Reconfig(StateOf(env.h, e + 1), true, false, true);
    var event := Event(ProposalMsg, Some(e + 1), id);
    var steps := [Delivers(db, peer, e, r), Deliver(db, peer, EventMsg(event), r), TaskEnds(0)];
    var w0 := StartNewEpoch(Fresh(), first);
    ProofMoves(env, w0, db, peer, e, r);
    var w1 := Apply(env, w0, steps[0]);
    Captured(env, w1, db, peer, event, r);
    var w2 := Apply(env, w1, steps[1]);
    var w3 := Apply(env, w2, steps[2]);
    ThreeSteps(env, first, [w0, w1, w2, w3], steps);
    assert [w0, w1, w2, w3][|steps|] == w3;
  }

  /** A proposal captured in one epoch, verified only after the next has begun, is then among the pending blocks. */
  lemma StalePendingBlock(env: Env, db: EpochDb, e: nat, peer: Author, id: nat)
    requires RealEndings(env.h, db.endings) && e < |db.endings|
    requires env.valid(Event(ProposalMsg, Some(e), id), StateOf(env.h, e))
    ensures exists ws: seq<World>, steps: seq<Step> ::
              && Run(env, ws, steps)
              && EpochAt(ws[|steps|]) == e + 1
              && ws[|steps|].pendingBlocks == {Event(ProposalMsg, Some(e), id)}
  {
    var first := Reconfig(StateOf(env.h, e), true, false, false);
    var r := Reconfig(StateOf(env.h, e + 1), true, false, false);
    var event := Event(ProposalMsg, Some(e), id);
    var steps := [Deliver(db, peer, EventMsg(event), r), Delivers(db, peer, e, r), TaskEnds(0)];
    var w0 := StartNewEpoch(Fresh(), first);
    Captured(env, w0, db, peer, event, r);
    var w1 := Apply(env, w0, steps[0]);
    ProofMoves(env, w1, db, peer, e, r);
    var w2 := Apply(env, w1, steps[1]);
    var w3 := Apply(env, w2, steps[2]);
    ThreeSteps(env, first, [w0, w1, w2, w3], steps);
    assert [w0, w1, w2, w3][|steps|] == w3;
  }

  /** In an epoch begun by a round manager, a DAG request goes into the sender of the DAG of an earlier epoch. */
  lemma StaleDagChannel(env: Env, db: EpochDb, e: nat, peer: Author, id: nat)
    requires RealEndings(env.h, db.endings) && e < |db.endings|
    ensures exists ws: seq<World>, steps: seq<Step> ::
              && Run(env, ws, steps)
              && EpochAt(ws[|steps|]) == e + 1
              && ws[|steps|].pushes
                 == [RpcPush(Channel(StateOf(env.h, e)), Rpc(DagRequest, Some(e + 1), id), StateOf(env.h, e + 1))]
  {
    var first := Reconfig(StateOf(env.h, e), true, true, false);
    var r := Reconfig(StateOf(env.h, e + 1), true, false, false);
    var steps := [Delivers(db, peer, e, r), RpcArrives(db, peer, Rpc(DagRequest, Some(e + 1), id))];
    var w0 := StartNewEpoch(Fresh(), first);
    ProofMoves(env, w0, db, peer, e, r);
    var w1 := Apply(env, w0, steps[0]);
    var w2 := Apply(env, w1, steps[1]);
    var ws := [w0, w1, w2];
    assert Next(env, ws[0], steps[0], ws[1]) && Next(env, ws[1], steps[1], ws[2]);
    assert Run(env, ws, steps) && ws[|steps|] == w2;
  }
}
