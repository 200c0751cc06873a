/**
 One small chain on which the gas price cache fails in each of the three known ways: after pruning past the newest
 cached block, after the tip goes back, and with no market blocks configured.

 Genesis is version 0. Block `i` is versions `2i - 1` and `2i`, all in epoch 1, and its inclusion price is `i`.
 */
module GasExamples {
  import opened Wrappers
  import opened GasPrices
  import opened GasEstimator
  import opened GasCache
  import opened GasRuns
  import opened GasPruning
  import opened GasGaps

  function Block(i: nat): Blk {
    if i == 0 then Blk(0, 0, 0, [Skipped]) else Blk(2 * i - 1, 2 * i, 1, [UserTxn(i, 1, OtherUse), Skipped])
  }

  function Chain(n: nat): Db {
    Db(seq(n + 1, i requires 0 <= i => Block(i)), 0)
  }

  /** One transaction makes a block full; prices are not rounded up; nothing is served from the cache. */
  function Config(history: nat, market: nat): EstimationConfig {
    EstimationConfig(true, None, 1, 1, market, history, 0, [])
  }

  function World(n: nat, history: nat, market: nat): Env {
    Env(Config(history, market), (e: nat) => EpochConfig(0, false, None), Chain(n))
  }

  /** The tip at the end of block `t`. */
  function At(t: nat): Request {
    Request(1, 2 * t, 0)
  }

  lemma ChainIsOk(n: nat, f: nat)
    ensures DbOk(PrunedDb(Chain(n), f))
  {
    var db := PrunedDb(Chain(n), f);
    forall i: nat | i < |db.blocks| ensures Sound(db, i) { assert db.blocks[i] == Block(i); }
    forall i: nat | 0 < i < |db.blocks| ensures Link(db, i) {
      assert db.blocks[i] == Block(i) && db.blocks[i - 1] == Block(i - 1);
    }
    forall i: nat, j: nat | i < j < |db.blocks| ensures Older(db, i, j) {
      assert db.blocks[i] == Block(i) && db.blocks[j] == Block(j);
    }
  }

  lemma InChain(n: nat, f: nat, i: nat)
    requires i <= n
    ensures PrunedDb(Chain(n), f).blocks[i] == Block(i)
    ensures In(PrunedDb(Chain(n), f), 1, i) <==> 0 < i && f <= 2 * i
  {
  }

  lemma StartsAt(n: nat, f: nat, t: nat)
    requires 0 < t <= n && f <= 2 * t
    ensures StartIndex(PrunedDb(Chain(n), f), 1, 2 * t) == t
  {
    ChainIsOk(n, f);
    InChain(n, f, t);
    StartOf(PrunedDb(Chain(n), f), 1, t);
  }

  /** A block that can be read whole has its own price; one that cannot has the minimum. */
  lemma PriceIs(n: nat, history: nat, market: nat, f: nat, i: nat)
    requires i > 0
    ensures FinalPrices(Pruned(World(n, history, market), f))(Block(i)) == if f <= 2 * i - 1 then i else 0
  {
    var b := Block(i);
    var txns := Scanned(b, b.last);
    assert txns == [UserTxn(i, 1, OtherUse)] && txns[..0] == [];
    assert UserPrices(txns) == [(i, 1)];
  }

  // ---------------------------------------------------------------------------------------------
  // Pruning past the newest cached block
  // ---------------------------------------------------------------------------------------------

  function EntryFor(i: nat): Entry {
    Entry(1, 2 * i, i)
  }

  function Entries(ix: seq<nat>): (p: seq<Entry>)
    ensures |p| == |ix| && forall j :: 0 <= j < |ix| ==> p[j] == EntryFor(ix[j])
  {
    seq(|ix|, j requires 0 <= j < |ix| => EntryFor(ix[j]))
  }

  lemma EntryIs(n: nat, f: nat, i: nat)
    requires 0 < i <= n && f <= 2 * i - 1
    ensures i < |PrunedDb(Chain(n), f).blocks|
    ensures EntryOf(PrunedDb(Chain(n), f), FinalPrices(Pruned(World(n, 4, 1), f)), 1, i) == EntryFor(i)
  {
    InChain(n, f, i);
    PriceIs(n, 4, 1, f, i);
  }

  /** The blocks are recorded with their own prices. */
  ghost predicate OwnPrices(db: Db, price: Pricing, lo: nat, hi: nat) {
    && hi <= |db.blocks|
    && forall i: nat {:trigger EntryOf(db, price, 1, i)} :: lo <= i < hi ==> EntryOf(db, price, 1, i) == EntryFor(i)
  }

  lemma HasOwnPrices(n: nat, f: nat, lo: nat, hi: nat)
    requires 0 < lo <= hi <= n && f <= 2 * lo - 1
    ensures OwnPrices(PrunedDb(Chain(n), f), FinalPrices(Pruned(World(n, 4, 1), f)), lo, hi)
  {
    var db, price := PrunedDb(Chain(n), f), FinalPrices(Pruned(World(n, 4, 1), f));
    forall i: nat | lo <= i < hi ensures EntryOf(db, price, 1, i) == EntryFor(i) { EntryIs(n, f, i); }
  }

  lemma RunIs(db: Db, price: Pricing, lo: nat, hi: nat)
    requires lo <= hi && OwnPrices(db, price, lo, hi)
    ensures RunOf(db, price, 1, lo, hi) == Entries(Range(lo, hi))
  {
    var run := RunOf(db, price, 1, lo, hi);
    forall j | 0 <= j < |run| ensures run[j] == EntryFor(lo + j) { assert run[j] == EntryOf(db, price, 1, lo + j); }
  }

  lemma EntriesAreKnown(n: nat, f: nat, ix: seq<nat>)
    requires Up(ix) && (forall j :: 0 <= j < |ix| ==> 0 < ix[j] <= n) && Settled(PrunedDb(Chain(n), f), 1, 4, ix)
    ensures Known(Pruned(World(n, 4, 1), f), 1, Entries(ix), ix)
  {
    var env, p := Pruned(World(n, 4, 1), f), Entries(ix);
    forall j | 0 <= j < |ix|
      ensures KeyOf(env.db, 1, p[j], ix[j]) && AgedAt(env, p[j], ix[j])
    {
      InChain(n, f, ix[j]);
      PriceIs(n, 4, 1, 0, ix[j]);
      assert Pruned(env, 0) == Pruned(World(n, 4, 1), 0);
    }
  }

  lemma JoinEntries(ix: seq<nat>, iy: seq<nat>)
    ensures Entries(ix) + Entries(iy) == Entries(ix + iy)
  {
  }

  lemma RecordedEntries(db: Db, price: Pricing, ix: seq<nat>, t: nat, m: nat)
    requires DbOk(db) && 0 < m < t && OwnPrices(db, price, t - m, t)
    requires AllBelow(ix, t - m) && Keyed(db, 1, Entries(ix), ix)
    ensures InsertAll(price, Entries(ix), 1, Descend(db, t, m)) == Entries(ix + Range(t - m, t))
  {
    RecordOnTop(db, price, 1, Entries(ix), ix, t, m);
    RunIs(db, price, t - m, t);
    JoinEntries(ix, Range(t - m, t));
  }

  /** The cache after a recomputation, holding blocks `ix`. */
  ghost predicate Holds(c: Cache, ix: seq<nat>) {
    && c.prices == Entries(ix)
    && (c == Started() || (c.lastUpdatedEpoch == Some(1) && c.lastUpdatedTime == Some(0)))
  }

  /** A recomputation from above blocks `ix`, on the chain pruned below `f`. */
  lemma NextEntries(n: nat, f: nat, env: Env, c: Cache, ix: seq<nat>, t: nat, m: nat, hit: bool)
    requires env == Pruned(World(n, 4, 1), f) && Holds(c, ix) && Known(env, 1, Entries(ix), ix)
    requires 0 < m < t <= n && f <= 2 * (t - m) - 1 && |ix| + m <= 4 && AllBelow(ix, t - m)
    requires Goes(env.db, ix, 1, t, 4, m, hit)
    ensures Holds(Estimate(env, c, At(t)).0, ix + Range(t - m, t))
  {
    ChainIsOk(n, f);
    StartsAt(n, f, t);
    RequestLeaves(env, c, At(t), ix, t, m, hit);
    HasOwnPrices(n, f, t - m, t);
    RecordedEntries(env.db, FinalPrices(env), ix, t, m);
  }

  /** Three requests: the floor `f` passes the newest cached block between the first two. */
  function PastTheNewest(f: nat): seq<Arrival> {
    [Arrival(At(3), 0), Arrival(At(8), f), Arrival(At(9), f)]
  }

  /** The first walk, with nothing pruned, caches blocks 1 and 2. */
  lemma FirstWalk(n: nat, env: Env)
    requires n >= 9 && env == Pruned(World(n, 4, 1), 0)
    ensures Holds(Estimate(env, Started(), At(3)).0, [1, 2])
  {
    InChain(n, 0, 0);
    InChain(n, 0, 1);
    InChain(n, 0, 2);
    EntriesAreKnown(n, 0, []);
    NextEntries(n, 0, env, Started(), [], 3, 2, false);
    assert [] + Range(1, 3) == [1, 2];
  }

  lemma GoesSecond(db: Db, n: nat, f: nat, ix: seq<nat>)
    requires n >= 9 && f == 11 && db == PrunedDb(Chain(n), f) && ix == [1, 2]
    ensures Goes(db, ix, 1, 8, 4, 2, false) && Settled(db, 1, 4, ix)
  {
    InChain(n, f, 0);
    InChain(n, f, 5);
    InChain(n, f, 6);
    InChain(n, f, 7);
  }

  /** The second walk stops above pruned block 5 and leaves a gap. */
  lemma SecondWalk(n: nat, f: nat, env: Env, c: Cache, ix: seq<nat>, iz: seq<nat>)
    requires n >= 9 && f == 11 && env == Pruned(World(n, 4, 1), f)
    requires ix == [1, 2] && iz == [1, 2, 6, 7] && Holds(c, ix)
    ensures Holds(Estimate(env, c, At(8)).0, iz)
  {
    GoesSecond(env.db, n, f, ix);
    EntriesAreKnown(n, f, ix);
    NextEntries(n, f, env, c, ix, 8, 2, false);
    assert ix + Range(6, 8) == iz;
  }

  lemma GoesThird(db: Db, n: nat, f: nat, ix: seq<nat>)
    requires n >= 9 && f == 11 && db == PrunedDb(Chain(n), f) && ix == [1, 2, 6, 7]
    ensures Goes(db, ix, 1, 9, 4, 1, true) && Settled(db, 1, 4, ix)
  {
    InChain(n, f, 5);
    InChain(n, f, 8);
    assert ix[3] == 7;
  }

  lemma AcrossTheGap(n: nat, f: nat, env: Env, c: Cache, ix: seq<nat>) returns (iy: seq<nat>)
    requires n >= 9 && f == 11 && env == Pruned(World(n, 4, 1), f) && ix == [1, 2, 6, 7] && Holds(c, ix)
    ensures DbOk(env.db) && Known(env, 1, Entries(ix), ix) && StartIndex(env.db, 1, 18) == 9 && iy == ix
    ensures Meets(env.db, 1, 4, Entries(ix), ix, 9, WalkFor(env, c, At(9)), iy)
    ensures WalkFor(env, c, At(9)).hit && |WalkFor(env, c, At(9)).blocks| == 1
  {
    GoesThird(env.db, n, f, ix);
    EntriesAreKnown(n, f, ix);
    ChainIsOk(n, f);
    StartsAt(n, f, 9);
    iy := RequestMeets(env, c, At(9), ix, 9);
    var w := WalkFor(env, c, At(9));
    GoesOneWay(env.db, ix, 1, 9, 4, 1, true, |w.blocks|, w.hit);
    SameLast(ix, iy);
  }

  lemma FallsBack(n: nat, f: nat, env: Env, c: Cache, ix: seq<nat>)
    requires n >= 9 && f == 11 && env == Pruned(World(n, 4, 1), f) && ix == [1, 2, 6, 7] && Holds(c, ix)
    ensures !GapFree(env, c, At(9))
  {
    var iy := AcrossTheGap(n, f, env, c, ix);
    UsedByWalk(env.db, 4, 1, Entries(ix), ix, 9, WalkFor(env, c, At(9)), iy);
    assert !Adjacent(iy, 2);
  }

  /** The third walk meets block 7 and falls back on block 2 across the gap. */
  lemma ThirdWalk(n: nat, f: nat, env: Env, c: Cache, ix: seq<nat>)
    requires n >= 9 && f == 11 && env == Pruned(World(n, 4, 1), f) && ix == [1, 2, 6, 7] && Holds(c, ix)
    ensures MergedPrices(env, c, At(9)) == [8, 7, 6, 2]
  {
    var iy := AcrossTheGap(n, f, env, c, ix);
    RequestFollows(env, c, At(9));
    MergesAcross(n, f, env, ix, WalkFor(env, c, At(9)), iy);
  }

  lemma MergesAcross(n: nat, f: nat, env: Env, ix: seq<nat>, w: Walked, iy: seq<nat>)
    requires n >= 9 && f == 11 && env == Pruned(World(n, 4, 1), f) && ix == [1, 2, 6, 7] && iy == ix
    requires DbOk(env.db) && Known(env, 1, Entries(ix), ix) && Meets(env.db, 1, 4, Entries(ix), ix, 9, w, iy)
    requires |w.blocks| == 1
    ensures Follow(FinalPrices(env), 4, 1, Entries(ix), w).merged == [8, 7, 6, 2]
  {
    var p := Entries(ix);
    MergedByWalk(env.db, FinalPrices(env), 4, 1, p, ix, 9, w, iy);
    assert p[..|iy|] == p;
    FreshPrice(n, f, env, w.blocks);
    NewestThree(p, ix);
  }

  lemma FreshPrice(n: nat, f: nat, env: Env, blocks: seq<Blk>)
    requires n >= 9 && f == 11 && env == Pruned(World(n, 4, 1), f) && blocks == Descend(env.db, 9, 1)
    ensures PricesOf(FinalPrices(env), blocks) == [8]
  {
    InChain(n, f, 8);
    PriceIs(n, 4, 1, f, 8);
    assert blocks == [Block(8)] && blocks[1..] == [];
  }

  lemma NewestThree(p: seq<Entry>, ix: seq<nat>)
    requires ix == [1, 2, 6, 7] && p == Entries(ix)
    ensures Newest(p, 3) == [7, 6, 2]
  {
    NewestLength(p, 3);
    NewestAt(p, 3, 0);
    NewestAt(p, 3, 1);
    NewestAt(p, 3, 2);
  }

  /** The fourth price of a plain walk from the same tip is that of block 5, or the minimum if that is half pruned. */
  lemma NeverBlockTwo(n: nat, f: nat, env: Env)
    requires n >= 9 && env == Pruned(World(n, 4, 1), f)
    ensures SimplePrices(env, At(9)) != [8, 7, 6, 2]
  {
    ChainIsOk(n, f);
    if f > 18 {
      PlainAbove(World(n, 4, 1), At(9), f);
    } else {
      StartsAt(n, f, 9);
      SimpleIsPlain(env, At(9));
      FourthPrice(n, f, env, Min(4, 9 - Low(env.db, 1, 9)));
    }
  }

  lemma FourthPrice(n: nat, f: nat, env: Env, m: nat)
    requires n >= 9 && env == Pruned(World(n, 4, 1), f) && m <= 4
    ensures |env.db.blocks| > 9 && PricesOf(FinalPrices(env), Descend(env.db, 9, m)) != [8, 7, 6, 2]
  {
    var blocks := Descend(env.db, 9, m);
    PricesLength(FinalPrices(env), blocks);
    if m == 4 {
      PricesOfAt(FinalPrices(env), blocks, 3);
      DescendAt(env.db, 9, m, 3);
      InChain(n, f, 5);
      PriceIs(n, 4, 1, f, 5);
    }
  }

  /** The cache before the third request. */
  lemma TwoWalks(n: nat, f: nat, env: Env, arrivals: seq<Arrival>)
    requires n >= 9 && f == 11 && env == World(n, 4, 1) && arrivals == PastTheNewest(f)
    ensures Holds(AfterPruned(env, arrivals[..2]), [1, 2, 6, 7])
  {
    assert arrivals[..0] == [];
    AfterOneArrival(env, arrivals, 0);
    AfterOneArrival(env, arrivals, 1);
    FirstWalk(n, Pruned(env, 0));
    SecondWalk(n, f, Pruned(env, f), AfterPruned(env, arrivals[..1]), [1, 2], [1, 2, 6, 7]);
  }

  /**
   Pruning past the newest cached block does make a request use prices that no plain walk gives, at any floor: with the
   floor at version 11 after the first request, the third uses those of blocks 8, 7, 6 and 2.
   */
  lemma PruningPastTheNewestMixesPrices(n: nat, f: nat)
    requires n >= 9 && f == 11
    ensures var env, arrivals := World(n, 4, 1), PastTheNewest(f);
            var used := MergedPrices(Pruned(env, f), AfterPruned(env, arrivals[..2]), At(9));
            && DbOk(env.db) && Computes(env.cfg) && Rising(arrivals) && ForwardTips(arrivals)
            && arrivals[2] == Arrival(At(9), f)
            && used == [8, 7, 6, 2]
            && (forall g: nat :: SimplePrices(Pruned(env, g), At(9)) != used)
            && !GapFree(Pruned(env, f), AfterPruned(env, arrivals[..2]), At(9))
  {
    var env, arrivals := World(n, 4, 1), PastTheNewest(f);
    assert DbOk(env.db) by {
      ChainIsOk(n, 0);
      assert PrunedDb(env.db, 0) == env.db;
    }
    TwoWalks(n, f, env, arrivals);
    MixesPrices(n, f, env, AfterPruned(env, arrivals[..2]));
  }

  lemma MixesPrices(n: nat, f: nat, env: Env, c: Cache)
    requires n >= 9 && f == 11 && env == World(n, 4, 1) && Holds(c, [1, 2, 6, 7])
    ensures MergedPrices(Pruned(env, f), c, At(9)) == [8, 7, 6, 2] && !GapFree(Pruned(env, f), c, At(9))
    ensures forall g: nat :: SimplePrices(Pruned(env, g), At(9)) != [8, 7, 6, 2]
  {
    FallsBack(n, f, Pruned(env, f), c, [1, 2, 6, 7]);
    ThirdWalk(n, f, Pruned(env, f), c, [1, 2, 6, 7]);
    forall g: nat ensures SimplePrices(Pruned(env, g), At(9)) != [8, 7, 6, 2] {
      NeverBlockTwo(n, g, Pruned(env, g));
    }
  }

  // ---------------------------------------------------------------------------------------------
  // The tip goes back; no market blocks
  // ---------------------------------------------------------------------------------------------

  /** On ten blocks with a history of three: from the end of block 6 back to the end of block 5. */
  lemma TipGoesBack()
    ensures var env := World(9, 3, 1);
            MergedPrices(env, After(env, [At(6)]), At(5)) != SimplePrices(env, At(5))
  {
    ChainIsOk(9, 0);
    var env := World(9, 3, 1);
    assert PrunedDb(env.db, 0) == env.db;
    forall i | 2 <= i <= 6 ensures In(env.db, 1, i) { InChain(9, 0, i); }
    GoingBackLosesPrices(env, At(6), At(5), 3, 5, 6);
  }

  /** On ten blocks with a history of three and no market blocks, two requests leave six entries. */
  lemma NothingEverEvicted()
    ensures |After(World(9, 3, 0), [At(4), At(7)]).prices| == 6
  {
    ChainIsOk(9, 0);
    var env := World(9, 3, 0);
    assert PrunedDb(env.db, 0) == env.db;
    forall i | 1 <= i <= 7 ensures In(env.db, 1, i) { InChain(9, 0, i); }
    NoMarketNoEviction(env, At(4), At(7), 1, 4, 7);
  }
}
