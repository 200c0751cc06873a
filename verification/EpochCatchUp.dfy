/**
 The epoch retrieval protocol between managers: event, retrieval request, change proof.
 Replies cannot cascade without end, and an exchange brings a lagging node forward by up to one page of endings.
 */
module EpochCatchUp {
  import opened Wrappers
  import opened Quorum
  import opened EpochChange
  import opened EpochManager
  import opened EpochIsolation

  // ---------------------------------------------------------------------------------------------
  // Cascades
  // ---------------------------------------------------------------------------------------------

  /** A message, or a request of another kind, which may also be answered by a retrieval request or a proof. */
  datatype Cargo = Direct(msg: Message) | Call(rpc: Rpc)

  function Rank(c: Cargo): nat {
    match c
    case Call(_) => 2
    case Direct(EventMsg(_)) => 2
    case Direct(RetrievalMsg(_, _)) => 1
    case Direct(ProofMsg(_)) => 0
    case Direct(OtherMsg) => 0
  }

  datatype Flight = Flight(from: Author, to: Author, cargo: Cargo)

  /** Managers by author, and what is under way in any order. */
  datatype Cluster = Cluster(nodes: map<Author, World>, net: seq<Flight>)

  datatype Delivery = Delivery(i: nat, cfg: Settings, db: EpochDb, r: Reconfig)

  /** What the receiver does with it. */
  function Receive(cfg: Settings, w: World, db: EpochDb, peer: Author, c: Cargo, r: Reconfig): World
    requires w.m.epochState.Some?
  {
    match c
    case Direct(msg) => Process(cfg, w, db, peer, msg, r).0
    case Call(q) => ProcessRpc(cfg, w, db, peer, q).0
  }

  /** Receiving one sends at most one message, of lower rank. */
  ghost predicate AnsweredBy(w: World, w': World, c: Cargo) {
    || w'.outbox == w.outbox
    || (exists p: Packet :: w'.outbox == w.outbox + [p] && Rank(Direct(p.msg)) < Rank(c))
  }

  lemma OneLowerAnswer(cfg: Settings, w: World, db: EpochDb, peer: Author, c: Cargo, r: Reconfig)
    requires w.m.epochState.Some?
    ensures AnsweredBy(w, Receive(cfg, w, db, peer, c, r), c)
  {
  }

  /** What the receiver answers, put under way. */
  function Answer(w: World, w': World, f: Flight): seq<Flight> {
    if |w'.outbox| > |w.outbox| then
      [Flight(f.to, w'.outbox[|w'.outbox| - 1].to, Direct(w'.outbox[|w'.outbox| - 1].msg))]
    else []
  }

  ghost predicate DeliveryOk(c: Cluster, d: Delivery) {
    d.i < |c.net| && (c.net[d.i].to in c.nodes ==> c.nodes[c.net[d.i].to].m.epochState.Some?)
  }

  function DeliverOne(c: Cluster, d: Delivery): Cluster
    requires DeliveryOk(c, d)
  {
    var f := c.net[d.i];
    var rest := c.net[..d.i] + c.net[d.i + 1..];
    if f.to !in c.nodes then c.(net := rest)
    else
      var w := c.nodes[f.to];
      var w' := Receive(d.cfg, w, d.db, f.from, f.cargo, d.r);
      Cluster(c.nodes[f.to := w'], rest + Answer(w, w', f))
  }

  ghost function Weight(net: seq<Flight>): nat {
    if net == [] then 0 else Rank(net[0].cargo) + 1 + Weight(net[1..])
  }

  lemma {:induction false} WeightJoin(a: seq<Flight>, b: seq<Flight>)
    ensures Weight(a + b) == Weight(a) + Weight(b)
  {
    if a == [] {
      assert a + b == b;
    } else {
      assert (a + b)[1..] == a[1..] + b;
      WeightJoin(a[1..], b);
    }
  }

  lemma WeightAround(a: seq<Flight>, x: Flight, b: seq<Flight>)
    ensures Weight(a + ([x] + b)) == Weight(a + b) + Rank(x.cargo) + 1
  {
    WeightJoin(a, [x] + b);
    WeightJoin(a, b);
    assert ([x] + b)[1..] == b;
  }

  lemma Around(net: seq<Flight>, i: nat)
    requires i < |net|
    ensures net == net[..i] + ([net[i]] + net[i + 1..])
  {
  }

  lemma AnswerWeighsLess(w: World, w': World, f: Flight)
    requires AnsweredBy(w, w', f.cargo)
    ensures Weight(Answer(w, w', f)) <= Rank(f.cargo)
  {
    if |w'.outbox| > |w.outbox| {
      var p: Packet :| w'.outbox == w.outbox + [p] && Rank(Direct(p.msg)) < Rank(f.cargo);
      assert Answer(w, w', f)[1..] == [];
    }
  }

  lemma DeliveryLosesWeight(c: Cluster, d: Delivery)
    requires DeliveryOk(c, d)
    ensures Weight(DeliverOne(c, d).net) < Weight(c.net)
  {
    var f := c.net[d.i];
    var rest := c.net[..d.i] + c.net[d.i + 1..];
    Around(c.net, d.i);
    WeightAround(c.net[..d.i], f, c.net[d.i + 1..]);
    if f.to in c.nodes {
      var w := c.nodes[f.to];
      var w' := Receive(d.cfg, w, d.db, f.from, f.cargo, d.r);
      OneLowerAnswer(d.cfg, w, d.db, f.from, f.cargo, d.r);
      AnswerWeighsLess(w, w', f);
      WeightJoin(rest, Answer(w, w', f));
    }
  }

  ghost predicate Cascade(cs: seq<Cluster>, ds: seq<Delivery>) {
    && |cs| == |ds| + 1
    && forall i {:trigger ds[i]} :: 0 <= i < |ds| ==> DeliveryOk(cs[i], ds[i]) && cs[i + 1] == DeliverOne(cs[i], ds[i])
  }

  lemma {:induction false} CascadeWeight(cs: seq<Cluster>, ds: seq<Delivery>, k: nat)
    requires Cascade(cs, ds) && k <= |ds|
    ensures Weight(cs[k].net) + k <= Weight(cs[0].net)
    decreases k
  {
    if k > 0 {
      CascadeWeight(cs, ds, k - 1);
      assert DeliveryOk(cs[k - 1], ds[k - 1]);
      DeliveryLosesWeight(cs[k - 1], ds[k - 1]);
    }
  }

  lemma {:induction false} WeightBound(net: seq<Flight>)
    ensures Weight(net) <= 3 * |net|
  {
    if net != [] { WeightBound(net[1..]); }
  }

  /** In any order of delivery, the answers to `n` messages and requests stop after at most `3n` deliveries. */
  lemma CascadesEnd(cs: seq<Cluster>, ds: seq<Delivery>)
    requires Cascade(cs, ds)
    ensures |ds| <= 3 * |cs[0].net|
  {
    CascadeWeight(cs, ds, |ds|);
    WeightBound(cs[0].net);
  }

  // ---------------------------------------------------------------------------------------------
  // Progress
  // ---------------------------------------------------------------------------------------------

  lemma PageIsGenuine(h: History, db: EpochDb, start: nat, stop: nat, more: bool)
    requires RealEndings(h, db.endings) && start < stop <= |db.endings|
    ensures GenuineProof(h, EpochChangeProof(db.endings[start..stop], more))
  {
    var infos := db.endings[start..stop];
    forall i | 0 <= i < |infos| ensures Genuine(h, infos[i]) {
      assert infos[i] == db.endings[start + i] && RealEnding(h, db.endings, start + i);
    }
  }

  lemma ChainedVerifies(infos: seq<SignedLedgerInfo>, more: bool, s: EpochState)
    requires infos != [] && Chained(TrustEpoch(s), infos) && infos[|infos| - 1].info.epoch >= s.epoch
    ensures VerifyResult(EpochChangeProof(infos, more), TrustEpoch(s)) == Ok(infos[|infos| - 1].info)
  {
    assert FreshFrom(TrustEpoch(s), infos, 0) && infos[0..] == infos;
    VerifyResultIs(EpochChangeProof(infos, more), TrustEpoch(s));
  }

  /** A page of endings from one's own epoch verifies and ends where the page does. */
  lemma PageVerifies(h: History, db: EpochDb, start: nat, stop: nat, more: bool)
    requires RealEndings(h, db.endings) && start < stop <= |db.endings|
    ensures var proof := EpochChangeProof(db.endings[start..stop], more);
            && VerifyResult(proof, TrustEpoch(StateOf(h, start))) == Ok(db.endings[stop - 1].info)
            && ProofEpoch(proof) == Ok(start)
  {
    var infos := db.endings[start..stop];
    assert infos[0] == db.endings[start] && infos[|infos| - 1] == db.endings[stop - 1];
    assert RealEnding(h, db.endings, start) && RealEnding(h, db.endings, stop - 1);
    EndingsChain(h, db.endings, start, stop);
    ChainedVerifies(infos, more, StateOf(h, start));
  }

  /** The notification after the state sync to the end of the proof. */
  ghost predicate Follows(h: History, r: Reconfig, epoch: nat) {
    r.state == StateOf(h, epoch)
  }

  /** `w` is in `epoch`, with its real validator set. */
  ghost predicate In(h: History, w: World, epoch: nat) {
    w.m.epochState == Some(StateOf(h, epoch))
  }

  predicate Accepted(cfg: Settings, e: Event) {
    e.kind.OptProposalMsg? ==> cfg.optProposals
  }

  lemma Asks(cfg: Settings, h: History, w: World, db: EpochDb, peer: Author, e: Event, mine: nat, theirs: nat,
             r: Reconfig)
    requires In(h, w, mine) && mine < theirs && e.epoch == Some(theirs) && Accepted(cfg, e)
    ensures Process(cfg, w, db, peer, EventMsg(e), r).0 == Send(w, peer, RetrievalMsg(mine, theirs))
  {
  }

  lemma Answers(cfg: Settings, h: History, w: World, db: EpochDb, peer: Author, start: nat, end: nat, r: Reconfig)
    requires In(h, w, end) && start < end <= |db.endings|
    ensures EpochEndings(db, start, end).Ok?
    ensures Process(cfg, w, db, peer, RetrievalMsg(start, end), r).0
            == Send(w, peer, ProofMsg(EpochEndings(db, start, end).value))
  {
  }

  /** A node outside the validator set of its epoch answers an old event with the proof at once. */
  lemma AnswersDirectly(cfg: Settings, h: History, w: World, db: EpochDb, peer: Author, e: Event, start: nat, end: nat,
                        r: Reconfig)
    requires In(h, w, end) && start < end <= |db.endings| && e.epoch == Some(start) && Accepted(cfg, e)
    ensures EpochEndings(db, start, end).Ok?
    ensures Process(cfg, w, db, peer, EventMsg(e), r).0
            == if cfg.author in h(end).Authors() then w
               else Send(w, peer, ProofMsg(EpochEndings(db, start, end).value))
  {
  }

  function Reached(mine: nat, theirs: nat): nat {
    Min(theirs, mine + MAX_NUM_EPOCH_ENDING_LEDGER_INFO)
  }

  lemma Moved(cfg: Settings, h: History, w: World, db: EpochDb, theirDb: EpochDb, peer: Author, mine: nat, theirs: nat,
              r: Reconfig)
    requires In(h, w, mine) && RealEndings(h, theirDb.endings) && mine < theirs <= |theirDb.endings|
    requires Follows(h, r, Reached(mine, theirs))
    ensures EpochEndings(theirDb, mine, theirs).Ok?
    ensures In(h, Process(cfg, w, db, peer, ProofMsg(EpochEndings(theirDb, mine, theirs).value), r).0,
               Reached(mine, theirs))
  {
    PageVerifies(h, theirDb, mine, Reached(mine, theirs), Reached(mine, theirs) < theirs);
    assert RealEnding(h, theirDb.endings, Reached(mine, theirs) - 1);
  }

  /**
   An undisturbed exchange: `b`, in a later epoch, sends an event; `a` asks; `b` answers; `a` moves.
   `a` ends in the epoch that `b` announced exactly when that is at most one page of endings away.
   */
  lemma ExchangeAdvances(h: History, cfgA: Settings, cfgB: Settings, a: World, b: World, dbA: EpochDb, dbB: EpochDb,
                         e: Event, mine: nat, theirs: nat, r: Reconfig)
    requires In(h, a, mine) && In(h, b, theirs) && mine < theirs && e.epoch == Some(theirs) && Accepted(cfgA, e)
    requires RealEndings(h, dbB.endings) && theirs <= |dbB.endings| && Follows(h, r, Reached(mine, theirs))
    ensures Process(cfgA, a, dbA, cfgB.author, EventMsg(e), r).0 == Send(a, cfgB.author, RetrievalMsg(mine, theirs))
    ensures EpochEndings(dbB, mine, theirs).Ok?
    ensures var reply := ProofMsg(EpochEndings(dbB, mine, theirs).value);
            && Process(cfgB, b, dbB, cfgA.author, RetrievalMsg(mine, theirs), r).0 == Send(b, cfgA.author, reply)
            && GenuineProof(h, reply.proof)
            && var a' := Process(cfgA, Send(a, cfgB.author, RetrievalMsg(mine, theirs)), dbA, cfgB.author, reply, r).0;
               && In(h, a', Reached(mine, theirs))
               && (EpochAt(a') == theirs <==> theirs - mine <= MAX_NUM_EPOCH_ENDING_LEDGER_INFO)
  {
    Asks(cfgA, h, a, dbA, cfgB.author, e, mine, theirs, r);
    Answers(cfgB, h, b, dbB, cfgA.author, mine, theirs, r);
    Moved(cfgA, h, Send(a, cfgB.author, RetrievalMsg(mine, theirs)), dbA, dbB, cfgB.author, mine, theirs, r);
    PageIsGenuine(h, dbB, mine, Reached(mine, theirs), Reached(mine, theirs) < theirs);
  }

  /** The epochs a lagging node goes through while it keeps hearing from a peer in epoch `theirs`. */
  ghost predicate Climbs(h: History, ws: seq<World>, theirDb: EpochDb, theirs: nat) {
    forall i {:trigger ws[i]} :: 0 < i < |ws| ==>
      Hears(h, ws[i - 1], ws[i], theirDb, theirs)
  }

  /** One exchange, or nothing once the peer is no longer ahead. */
  ghost predicate Hears(h: History, w: World, w': World, theirDb: EpochDb, theirs: nat) {
    && w.m.epochState.Some?
    && var mine := w.m.epochState.value.epoch;
       if mine < theirs then
         exists cfg: Settings, db: EpochDb, peer: Author, r: Reconfig ::
           && Follows(h, r, Reached(mine, theirs)) && EpochEndings(theirDb, mine, theirs).Ok?
           && w' == Process(cfg, Send(w, peer, RetrievalMsg(mine, theirs)), db, peer,
                            ProofMsg(EpochEndings(theirDb, mine, theirs).value), r).0
       else w'.m == w.m
  }

  lemma HearsMoves(h: History, w: World, w': World, theirDb: EpochDb, mine: nat, theirs: nat)
    requires In(h, w, mine) && mine <= theirs <= |theirDb.endings| && RealEndings(h, theirDb.endings)
    requires Hears(h, w, w', theirDb, theirs)
    ensures In(h, w', Reached(mine, theirs))
  {
    if mine < theirs {
      var cfg: Settings, db: EpochDb, peer: Author, r: Reconfig :|
        && Follows(h, r, Reached(mine, theirs)) && EpochEndings(theirDb, mine, theirs).Ok?
        && w' == Process(cfg, Send(w, peer, RetrievalMsg(mine, theirs)), db, peer,
                         ProofMsg(EpochEndings(theirDb, mine, theirs).value), r).0;
      Moved(cfg, h, Send(w, peer, RetrievalMsg(mine, theirs)), db, theirDb, peer, mine, theirs, r);
    }
  }

  lemma ClimbStep(h: History, ws: seq<World>, theirDb: EpochDb, at: nat, theirs: nat, k: nat)
    requires 0 < k < |ws| && In(h, ws[k - 1], at) && at <= theirs <= |theirDb.endings|
    requires RealEndings(h, theirDb.endings)
    requires Climbs(h, ws, theirDb, theirs)
    ensures In(h, ws[k], Reached(at, theirs))
  {
    HearsMoves(h, ws[k - 1], ws[k], theirDb, at, theirs);
  }

  function Covered(mine: nat, theirs: nat, k: nat): (e: nat)
    ensures e == theirs <==> theirs - mine <= k * MAX_NUM_EPOCH_ENDING_LEDGER_INFO
    ensures k > 0 && mine <= theirs ==> e == Reached(Covered(mine, theirs, k - 1), theirs)
  {
    if theirs - mine <= k * MAX_NUM_EPOCH_ENDING_LEDGER_INFO then theirs
    else mine + k * MAX_NUM_EPOCH_ENDING_LEDGER_INFO
  }

  /** After `k` exchanges exactly `k` pages are covered; the peer's epoch is reached once they suffice. */
  lemma {:induction false} CatchesUp(h: History, ws: seq<World>, theirDb: EpochDb, mine: nat, theirs: nat, k: nat)
    requires k < |ws| && In(h, ws[0], mine) && mine <= theirs <= |theirDb.endings| && RealEndings(h, theirDb.endings)
    requires Climbs(h, ws, theirDb, theirs)
    ensures In(h, ws[k], Covered(mine, theirs, k))
    ensures EpochAt(ws[k]) == theirs <==> theirs - mine <= k * MAX_NUM_EPOCH_ENDING_LEDGER_INFO
    decreases k
  {
    if k > 0 {
      CatchesUp(h, ws, theirDb, mine, theirs, k - 1);
      ClimbStep(h, ws, theirDb, Covered(mine, theirs, k - 1), theirs, k);
    }
  }
}
