/**
 The gas price cache while old versions are pruned: the readable part of the database shrinks between requests.

 Cached prices of blocks pruned since stay in use. As long as pruning does not pass the newest cached block, the prices
 used are those of a plain walk over an earlier, larger database. `GasGaps` says what happens in general.
 */
module GasPruning {
  import opened Wrappers
  import opened GasPrices
  import opened GasEstimator
  import opened GasCache
  import opened GasRuns

  /** The same chain, readable from `floor` on. */
  function PrunedDb(db: Db, floor: nat): Db {
    db.(floor := floor)
  }

  function Pruned(env: Env, floor: nat): Env {
    env.(db := PrunedDb(env.db, floor))
  }

  /** A request, and the floor when it is served. */
  datatype Arrival = Arrival(req: Request, floor: nat)

  lemma PrunedIsOk(db: Db, floor: nat)
    requires DbOk(db)
    ensures DbOk(PrunedDb(db, floor))
  {
    var d := PrunedDb(db, floor);
    forall i: nat | i < |d.blocks| ensures Sound(d, i) { assert Sound(db, i); }
    forall i: nat | 0 < i < |d.blocks| ensures Link(d, i) { assert Link(db, i); }
    forall i: nat, j: nat | i < j < |d.blocks| ensures Older(d, i, j) { assert Older(db, i, j); }
  }

  // ---------------------------------------------------------------------------------------------
  // One walk at two floors
  // ---------------------------------------------------------------------------------------------

  /** Down to the cached run both walks see the same blocks. */
  lemma {:induction false} SameSteps(db: Db, cached: seq<Entry>, e: nat, lo: nat, hi: nat, s: nat, k: nat, f: nat,
                                     g: nat)
    requires DbOk(db) && HasRun(db, cached, e, lo, hi) && lo < hi <= s <= |db.blocks|
    requires f <= g <= db.blocks[hi - 1].last
    ensures Steps(PrunedDb(db, g), cached, e, s, k) == Steps(PrunedDb(db, f), cached, e, s, k)
    decreases k
  {
    if k > 0 {
      assert CachedAt(db, cached, e, s - 1) <==> s == hi;
      assert CachedAt(PrunedDb(db, f), cached, e, s - 1) == CachedAt(db, cached, e, s - 1);
      assert CachedAt(PrunedDb(db, g), cached, e, s - 1) == CachedAt(db, cached, e, s - 1);
      if s > hi {
        assert Older(db, hi - 1, s - 1);
        if s > 2 { SameSteps(db, cached, e, lo, hi, s - 1, k - 1, f, g); }
      }
    }
  }

  /** Nothing of the blocks lies below `g`. */
  ghost predicate Whole(blocks: seq<Blk>, g: nat) {
    forall i :: 0 <= i < |blocks| ==> g <= blocks[i].first
  }

  lemma {:induction false} StepsAreWhole(db: Db, cached: seq<Entry>, e: nat, lo: nat, hi: nat, s: nat, k: nat, g: nat)
    requires DbOk(db) && HasRun(db, cached, e, lo, hi) && lo < hi <= s <= |db.blocks| && g <= db.blocks[hi - 1].last
    ensures Whole(Steps(db, cached, e, s, k).blocks, g)
    decreases k
  {
    if k > 0 {
      assert CachedAt(db, cached, e, s - 1) <==> s == hi;
      if s > hi {
        assert Older(db, hi - 1, s - 1);
        if s > 2 { StepsAreWhole(db, cached, e, lo, hi, s - 1, k - 1, g); }
      }
    }
  }

  lemma SameStart(db: Db, e: nat, tip: nat, f: nat, g: nat)
    requires f <= g <= tip
    ensures StartIndex(PrunedDb(db, g), e, tip) == StartIndex(PrunedDb(db, f), e, tip)
    ensures StartVersion(PrunedDb(db, g), e, tip) == StartVersion(PrunedDb(db, f), e, tip)
    ensures BlockAt(PrunedDb(db, g), tip) == BlockAt(PrunedDb(db, f), tip)
  {
  }

  lemma {:induction false} RunAtAnyFloor(db: Db, price: Pricing, e: nat, lo: nat, hi: nat, f: nat)
    requires lo <= hi <= |db.blocks|
    ensures RunOf(PrunedDb(db, f), price, e, lo, hi) == RunOf(db, price, e, lo, hi)
    decreases hi - lo
  {
    if lo < hi { RunAtAnyFloor(db, price, e, lo, hi - 1, f); }
  }

  lemma SameLiveWalk(db: Db, price: Pricing, h: nat, e: nat, p: seq<Entry>, lo: nat, hi: nat, s: nat, k: nat, f: nat,
                     g: nat)
    requires DbOk(db) && IsRun(PrunedDb(db, f), price, h, e, p, lo, hi) && hi <= s <= |db.blocks|
    requires f <= g <= db.blocks[hi - 1].last
    ensures Walk(PrunedDb(db, g), p, e, db.blocks[s - 1].last, k)
            == Walk(PrunedDb(db, f), p, e, db.blocks[s - 1].last, k)
    ensures Whole(Walk(PrunedDb(db, f), p, e, db.blocks[s - 1].last, k).blocks, g)
  {
    PrunedIsOk(db, f);
    PrunedIsOk(db, g);
    RunAtAnyFloor(db, price, e, lo, hi, f);
    RunHasRun(db, price, e, lo, hi);
    WalkIsSteps(PrunedDb(db, f), p, e, s, k);
    WalkIsSteps(PrunedDb(db, g), p, e, s, k);
    SameSteps(db, p, e, lo, hi, s, k, f, g);
    RunHasRun(PrunedDb(db, f), price, e, lo, hi);
    StepsAreWhole(PrunedDb(db, f), p, e, lo, hi, s, k, g);
  }

  /** Pruning has not passed the newest cached block. */
  predicate KeepsNewest(p: seq<Entry>, floor: nat) {
    p != [] ==> floor <= p[|p| - 1].version
  }

  lemma SameDeadWalk(db: Db, p: seq<Entry>, e: nat, tip: nat, k: nat, f: nat, g: nat)
    requires f <= g <= tip && !Contains(p, e, tip)
    requires BlockAt(PrunedDb(db, f), tip).None? || BlockAt(PrunedDb(db, f), tip).value.epoch != e
    ensures Walk(PrunedDb(db, g), p, e, tip, k) == Walk(PrunedDb(db, f), p, e, tip, k)
    ensures Walk(PrunedDb(db, f), p, e, tip, k).blocks == []
  {
    SameStart(db, e, tip, f, g);
  }

  lemma SameWalkAt(db: Db, price: Pricing, h: nat, e: nat, p: seq<Entry>, lo: nat, hi: nat, tip: nat, v: nat, k: nat,
                   f: nat, g: nat)
    requires DbOk(db) && IsRun(PrunedDb(db, f), price, h, e, p, lo, hi) && f <= g <= tip
    requires KeepsNewest(p, g) && Below(p, tip) && v == StartVersion(PrunedDb(db, f), e, tip)
    ensures Walk(PrunedDb(db, g), p, e, v, k) == Walk(PrunedDb(db, f), p, e, v, k)
    ensures Whole(Walk(PrunedDb(db, f), p, e, v, k).blocks, g)
  {
    PrunedIsOk(db, f);
    StartIs(PrunedDb(db, f), e, tip);
    var s := StartIndex(PrunedDb(db, f), e, tip);
    if s == 0 {
      DeadVersionIsNotCached(PrunedDb(db, f), price, h, e, p, lo, hi, tip);
      SameDeadWalk(db, p, e, tip, k, f, g);
    } else {
      assert p[|p| - 1] == EntryOf(PrunedDb(db, f), price, e, hi - 1);
      RunBelowTip(PrunedDb(db, f), price, h, e, p, lo, hi, tip);
      SameLiveWalk(db, price, h, e, p, lo, hi, s, k, f, g);
    }
  }

  lemma SameWalk(env: Env, c: Cache, req: Request, f: nat, g: nat)
    requires DbOk(env.db) && Inv(Pruned(env, f), c) && f <= g <= req.version
    requires Carried(c, req.epoch) != [] && KeepsNewest(Carried(c, req.epoch), g)
    requires Below(Carried(c, req.epoch), req.version)
    ensures WalkFor(Pruned(env, g), c, req) == WalkFor(Pruned(env, f), c, req)
    ensures Whole(WalkFor(Pruned(env, f), c, req).blocks, g)
  {
    var p, e, h := Carried(c, req.epoch), req.epoch, env.cfg.aggressiveBlockHistory;
    CarriedRun(Pruned(env, f), c, e);
    var lo, hi :| IsRun(PrunedDb(env.db, f), FinalPrices(Pruned(env, f)), h, e, p, lo, hi);
    SameStart(env.db, e, req.version, f, g);
    SameWalkAt(env.db, FinalPrices(Pruned(env, f)), h, e, p, lo, hi, req.version,
               StartVersion(PrunedDb(env.db, f), e, req.version), h, f, g);
  }

  /** Blocks of which nothing is pruned have the same price at both floors. */
  lemma WholePrices(env: Env, ver: nat, blocks: seq<Blk>, f: nat, g: nat)
    requires f <= g && Whole(blocks, g)
    ensures AgreeOn(PricesAt(Pruned(env, g), ver), PricesAt(Pruned(env, f), ver), blocks)
  {
    var high, low := PricesAt(Pruned(env, g), ver), PricesAt(Pruned(env, f), ver);
    forall i | 0 <= i < |blocks| ensures high(blocks[i]) == low(blocks[i]) { assert blocks[i].first >= g; }
  }

  lemma SameFollow(p: Pricing, q: Pricing, h: nat, e: nat, entries: seq<Entry>, w: Walked)
    requires |w.blocks| <= h && AgreeOn(p, q, w.blocks)
    ensures Follow(p, h, e, entries, w) == Follow(q, h, e, entries, w)
  {
    Agreement(p, q, entries, e, w.blocks);
  }

  lemma SameOutcome(env: Env, c: Cache, req: Request, f: nat, g: nat, w: Walked)
    requires f <= g && w == WalkFor(Pruned(env, f), c, req) == WalkFor(Pruned(env, g), c, req) && Whole(w.blocks, g)
    ensures Refreshed(Pruned(env, g), c, req) == Refreshed(Pruned(env, f), c, req)
    ensures MergedPrices(Pruned(env, g), c, req) == MergedPrices(Pruned(env, f), c, req)
  {
    WholePrices(env, req.version, w.blocks, f, g);
    SameFollow(PricesAt(Pruned(env, g), req.version), PricesAt(Pruned(env, f), req.version),
               env.cfg.aggressiveBlockHistory, req.epoch, Carried(c, req.epoch), w);
  }

  /** So the whole request goes as it would have gone at the earlier floor. */
  lemma SameEstimate(env: Env, c: Cache, req: Request, f: nat, g: nat)
    requires DbOk(env.db) && Inv(Pruned(env, f), c) && f <= g <= req.version
    requires Carried(c, req.epoch) != [] && KeepsNewest(Carried(c, req.epoch), g)
    requires Below(Carried(c, req.epoch), req.version)
    ensures MergedPrices(Pruned(env, g), c, req) == MergedPrices(Pruned(env, f), c, req)
    ensures Estimate(Pruned(env, g), c, req) == Estimate(Pruned(env, f), c, req)
  {
    SameWalk(env, c, req, f, g);
    SameOutcome(env, c, req, f, g, WalkFor(Pruned(env, f), c, req));
    EstimateFollows(Pruned(env, f), Pruned(env, g), c, req);
  }

  /** The walk, what it records and what is merged decide the rest. */
  lemma EstimateFollows(a: Env, b: Env, c: Cache, req: Request)
    requires a.cfg == b.cfg && a.chain == b.chain && WalkFor(a, c, req) == WalkFor(b, c, req)
    requires Refreshed(a, c, req) == Refreshed(b, c, req) && MergedPrices(a, c, req) == MergedPrices(b, c, req)
    ensures Estimate(a, c, req) == Estimate(b, c, req)
  {
  }

  // ---------------------------------------------------------------------------------------------
  // What is left is a prefix
  // ---------------------------------------------------------------------------------------------

  lemma {:induction false} LowRises(db: Db, e: nat, s: nat, f: nat, g: nat)
    requires f <= g
    ensures Low(PrunedDb(db, f), e, s) <= Low(PrunedDb(db, g), e, s)
  {
    if s > 0 && In(PrunedDb(db, g), e, s - 1) { LowRises(db, e, s - 1, f, g); }
  }

  lemma {:induction false} DescendAtAnyFloor(db: Db, s: nat, m: nat, f: nat)
    requires m <= s <= |db.blocks|
    ensures Descend(PrunedDb(db, f), s, m) == Descend(db, s, m)
    decreases m
  {
    if m > 0 { DescendAtAnyFloor(db, s - 1, m - 1, f); }
  }

  /** The blocks of the walk without a cache. */
  ghost function PlainBlocks(env: Env, req: Request): seq<Blk> {
    Walk(env.db, [], req.epoch, StartVersion(env.db, req.epoch, req.version), env.cfg.aggressiveBlockHistory).blocks
  }

  lemma {:induction false} ShorterDescent(db: Db, s: nat, a: nat, b: nat)
    requires a <= b <= s <= |db.blocks|
    ensures Descend(db, s, a) <= Descend(db, s, b)
    decreases a
  {
    if a > 0 { ShorterDescent(db, s - 1, a - 1, b - 1); }
  }

  lemma PlainWalkAt(env: Env, req: Request, f: nat, s: nat)
    requires DbOk(env.db) && f <= req.version && s > 0 && StartIndex(PrunedDb(env.db, f), req.epoch, req.version) == s
    ensures s <= |env.db.blocks|
    ensures PlainBlocks(Pruned(env, f), req)
            == Descend(env.db, s, Min(env.cfg.aggressiveBlockHistory, s - Low(PrunedDb(env.db, f), req.epoch, s)))
  {
    var db, h, e := PrunedDb(env.db, f), env.cfg.aggressiveBlockHistory, req.epoch;
    PrunedIsOk(env.db, f);
    StartIs(db, e, req.version);
    EmptyHasRun(db, e);
    WalkOutside(db, [], e, 0, 0, s, h);
    DescendAtAnyFloor(env.db, s, Min(h, s - Low(db, e, s)), f);
  }

  lemma PlainIsPrefix(env: Env, req: Request, f: nat, g: nat)
    requires DbOk(env.db) && f <= g <= req.version
    ensures PlainBlocks(Pruned(env, g), req) <= PlainBlocks(Pruned(env, f), req)
  {
    var e, h := req.epoch, env.cfg.aggressiveBlockHistory;
    SameStart(env.db, e, req.version, f, g);
    var s := StartIndex(PrunedDb(env.db, f), e, req.version);
    if s > 0 {
      PlainWalkAt(env, req, f, s);
      PlainWalkAt(env, req, g, s);
      LowRises(env.db, e, s, f, g);
      ShorterDescent(env.db, s, Min(h, s - Low(PrunedDb(env.db, g), e, s)), Min(h, s - Low(PrunedDb(env.db, f), e, s)));
    }
  }

  // ---------------------------------------------------------------------------------------------
  // Runs
  // ---------------------------------------------------------------------------------------------

  ghost function AfterPruned(env: Env, arrivals: seq<Arrival>): Cache {
    if arrivals == [] then Started()
    else
      var last := arrivals[|arrivals| - 1];
      Estimate(Pruned(env, last.floor), AfterPruned(env, arrivals[..|arrivals| - 1]), last.req).0
  }

  predicate Rises(a: Arrival, b: Arrival) {
    a.floor <= b.floor
  }

  predicate NotBack(a: Arrival, b: Arrival) {
    a.req.epoch == b.req.epoch ==> a.req.version <= b.req.version
  }

  /** The floor only rises, and never past the tip. */
  ghost predicate Rising(arrivals: seq<Arrival>) {
    && (forall i :: 0 <= i < |arrivals| ==> arrivals[i].floor <= arrivals[i].req.version)
    && (forall i {:trigger Rises(arrivals[i - 1], arrivals[i])} ::
          0 < i < |arrivals| ==> Rises(arrivals[i - 1], arrivals[i]))
  }

  /** Within an epoch the tip never goes back. */
  ghost predicate ForwardTips(arrivals: seq<Arrival>) {
    forall i {:trigger NotBack(arrivals[i - 1], arrivals[i])} ::
      0 < i < |arrivals| ==> NotBack(arrivals[i - 1], arrivals[i])
  }

  ghost predicate KeepsUpAt(env: Env, arrivals: seq<Arrival>, i: nat)
    requires i < |arrivals|
  {
    KeepsNewest(Carried(AfterPruned(env, arrivals[..i]), arrivals[i].req.epoch), arrivals[i].floor)
  }

  /** At no request has pruning passed the newest cached block of its epoch. */
  ghost predicate PruningKeepsUp(env: Env, arrivals: seq<Arrival>) {
    forall i: nat {:trigger KeepsUpAt(env, arrivals, i)} :: i < |arrivals| ==> KeepsUpAt(env, arrivals, i)
  }

  /** The cache is a run of some earlier, larger database. */
  ghost predicate OlderInv(env: Env, c: Cache, g: nat) {
    exists f: nat :: f <= g && Inv(Pruned(env, f), c)
  }

  /** Entries of another epoch do not matter. */
  lemma ForgetsOtherEpoch(env: Env, c: Cache, req: Request)
    requires Computes(env.cfg) && DbOk(env.db) && Carried(c, req.epoch) == []
    ensures var c' := c.(prices := []);
            && Inv(env, c') && Carried(c', req.epoch) == []
            && MergedPrices(env, c, req) == MergedPrices(env, c', req)
            && (Served(env.cfg, c, req) || Estimate(env, c, req) == Estimate(env, c', req))
  {
    var c' := c.(prices := []);
    assert WalkFor(env, c, req) == WalkFor(env, c', req);
    if !Idle(WalkFor(env, c', req)) {
      RefreshedIsRun(env, c', req);
      EstimationIs(env.cfg, env.chain(req.epoch).minGasUnitPrice, MergedPrices(env, c', req));
    }
  }

  /** At floor `g` the prices are those of the plain walk at floor `f`, which visits all that can still be visited. */
  ghost predicate RefinesAt(env: Env, c: Cache, req: Request, f: nat, g: nat) {
    && MergedPrices(Pruned(env, g), c, req) == SimplePrices(Pruned(env, f), req)
    && PlainBlocks(Pruned(env, g), req) <= PlainBlocks(Pruned(env, f), req)
  }

  ghost predicate RefinesEarlier(env: Env, c: Cache, req: Request, g: nat) {
    exists f: nat :: f <= g && RefinesAt(env, c, req, f, g)
  }

  /** One request at floor `g`: what it uses, and what it leaves. */
  ghost predicate GoesWell(env: Env, c: Cache, req: Request, g: nat) {
    && RefinesEarlier(env, c, req, g)
    && OlderInv(env, Estimate(Pruned(env, g), c, req).0, g)
    && Behind(env, Estimate(Pruned(env, g), c, req).0, req)
  }

  lemma NothingCarried(env: Env, c: Cache, req: Request, g: nat)
    requires DbOk(env.db) && Computes(env.cfg) && OlderInv(env, c, g) && Carried(c, req.epoch) == []
    ensures GoesWell(env, c, req, g)
  {
    PrunedIsOk(env.db, g);
    var c' := c.(prices := []);
    ForgetsOtherEpoch(Pruned(env, g), c, req);
    ForwardRefines(Pruned(env, g), c', req);
    assert RefinesAt(env, c, req, g, g);
    if !Served(env.cfg, c, req) {
      EstimateKeepsInv(Pruned(env, g), c', req);
      StaysBehind(Pruned(env, g), c', req);
    }
  }

  lemma SomethingCarried(env: Env, c: Cache, req: Request, f: nat, g: nat)
    requires DbOk(env.db) && Computes(env.cfg) && Inv(Pruned(env, f), c) && f <= g <= req.version
    requires Carried(c, req.epoch) != [] && KeepsNewest(Carried(c, req.epoch), g)
    requires Below(Carried(c, req.epoch), req.version)
    ensures GoesWell(env, c, req, g)
  {
    PrunedIsOk(env.db, f);
    SameEstimate(env, c, req, f, g);
    ForwardRefines(Pruned(env, f), c, req);
    PlainIsPrefix(env, req, f, g);
    assert RefinesAt(env, c, req, f, g);
    EstimateKeepsInv(Pruned(env, f), c, req);
    StaysBehind(Pruned(env, f), c, req);
  }

  lemma OneArrival(env: Env, c: Cache, req: Request, g: nat)
    requires DbOk(env.db) && Computes(env.cfg) && OlderInv(env, c, g) && g <= req.version
    requires KeepsNewest(Carried(c, req.epoch), g) && Below(Carried(c, req.epoch), req.version)
    ensures GoesWell(env, c, req, g)
  {
    if Carried(c, req.epoch) == [] {
      NothingCarried(env, c, req, g);
    } else {
      var f: nat :| f <= g && Inv(Pruned(env, f), c);
      SomethingCarried(env, c, req, f, g);
    }
  }

  lemma AfterOneArrival(env: Env, arrivals: seq<Arrival>, i: nat)
    requires i < |arrivals|
    ensures AfterPruned(env, arrivals[..i + 1])
            == Estimate(Pruned(env, arrivals[i].floor), AfterPruned(env, arrivals[..i]), arrivals[i].req).0
  {
    assert arrivals[..i + 1][..i] == arrivals[..i] && arrivals[..i + 1][i] == arrivals[i];
  }

  lemma {:induction false} ArrivalsGoWell(env: Env, arrivals: seq<Arrival>, i: nat)
    requires DbOk(env.db) && Computes(env.cfg) && i < |arrivals|
    requires Rising(arrivals) && ForwardTips(arrivals) && PruningKeepsUp(env, arrivals)
    ensures GoesWell(env, AfterPruned(env, arrivals[..i]), arrivals[i].req, arrivals[i].floor)
    decreases i
  {
    var c := AfterPruned(env, arrivals[..i]);
    assert KeepsUpAt(env, arrivals, i);
    if i == 0 {
      assert Inv(Pruned(env, 0), c);
      OneArrival(env, c, arrivals[0].req, arrivals[0].floor);
    } else {
      ArrivalsGoWell(env, arrivals, i - 1);
      AfterOneArrival(env, arrivals, i - 1);
      assert Rises(arrivals[i - 1], arrivals[i]) && NotBack(arrivals[i - 1], arrivals[i]);
      NextArrival(env, c, arrivals[i - 1], arrivals[i]);
    }
  }

  lemma NextArrival(env: Env, c: Cache, a: Arrival, b: Arrival)
    requires DbOk(env.db) && Computes(env.cfg) && OlderInv(env, c, a.floor) && Behind(env, c, a.req)
    requires Rises(a, b) && NotBack(a, b) && b.floor <= b.req.version && KeepsNewest(Carried(c, b.req.epoch), b.floor)
    ensures GoesWell(env, c, b.req, b.floor)
  {
    BelowNext(env, c, a.req, b.req);
    OneArrival(env, c, b.req, b.floor);
  }

  /**
   While old versions are pruned between requests, but never the newest cached block of the epoch, and tips move
   forward: every recomputation uses exactly the prices of a plain walk over the database as it was at some earlier
   floor, and the plain walk over what is left visits a prefix of its blocks.
   */
  lemma KeptUpRunsRefine(env: Env, arrivals: seq<Arrival>, i: nat)
    requires DbOk(env.db) && Computes(env.cfg) && i < |arrivals|
    requires Rising(arrivals) && ForwardTips(arrivals) && PruningKeepsUp(env, arrivals)
    ensures RefinesEarlier(env, AfterPruned(env, arrivals[..i]), arrivals[i].req, arrivals[i].floor)
  {
    ArrivalsGoWell(env, arrivals, i);
  }
}
