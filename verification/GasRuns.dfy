/**
 Whole runs of the gas price estimator: what every request keeps, when the cached walk gives what the plain
 walk gives, how large the cache gets, and what the three estimates are.
 */
module GasRuns {
  import opened Wrappers
  import opened GasPrices
  import opened GasEstimator
  import opened GasCache

  // ---------------------------------------------------------------------------------------------
  // One request
  // ---------------------------------------------------------------------------------------------

  ghost predicate CachedRun(db: Db, price: Pricing, h: nat, e: nat, p: seq<Entry>) {
    exists lo, hi :: IsRun(db, price, h, e, p, lo, hi)
  }

  /** The same run, or one that now ends below `s`. */
  ghost predicate NewRun(db: Db, price: Pricing, h: nat, e: nat, p: seq<Entry>, q: seq<Entry>, s: nat) {
    q == p || exists lo :: IsRun(db, price, h, e, q, lo, s)
  }

  predicate Idle(w: Walked) {
    w.blocks == [] && !w.hit
  }

  lemma NotCached(db: Db, price: Pricing, h: nat, e: nat, p: seq<Entry>, s: nat)
    requires DbOk(db) && (p == [] || CachedRun(db, price, h, e, p)) && 0 < s <= |db.blocks| && !In(db, e, s - 1)
    ensures !Contains(p, e, db.blocks[s - 1].last)
  {
    if p != [] {
      var lo, hi :| IsRun(db, price, h, e, p, lo, hi);
      RunIsIn(db, price, h, e, p, lo, hi);
      RunHasRun(db, price, e, lo, hi);
      assert !CachedAt(db, p, e, s - 1);
    }
  }

  lemma RedoNothing(db: Db, price: Pricing, h: nat, e: nat, p: seq<Entry>, s: nat)
    requires DbOk(db) && (p == [] || CachedRun(db, price, h, e, p)) && 0 < s <= |db.blocks|
    requires h == 0 || !In(db, e, s - 1)
    ensures var o := Redo(db, price, h, e, p, db.blocks[s - 1].last);
            && Idle(o.walked) && o.merged == [] == Plain(db, price, h, e, s)
            && !CutShort(db, p, e, db.blocks[s - 1].last)
  {
    if h > 0 {
      NotCached(db, price, h, e, p, s);
      WalkStep(db, p, e, s, h);
    }
    MergeFresh(price, h, p, e, Walk(db, p, e, db.blocks[s - 1].last, h));
  }

  lemma PlainIsSomething(db: Db, price: Pricing, h: nat, e: nat, s: nat)
    requires 0 < s <= |db.blocks| && In(db, e, s - 1) && h > 0
    ensures Plain(db, price, h, e, s) != []
  {
    PricesLength(price, Descend(db, s, Min(h, s - Low(db, e, s))));
  }

  /** With a cached run, from a readable block of the epoch. */
  lemma RedoFromRun(db: Db, price: Pricing, h: nat, e: nat, p: seq<Entry>, lo: nat, hi: nat, s: nat)
    requires DbOk(db) && IsRun(db, price, h, e, p, lo, hi) && 0 < s <= |db.blocks| && In(db, e, s - 1) && h > 0
    ensures var o := Redo(db, price, h, e, p, db.blocks[s - 1].last);
            && CachedRun(db, price, h, e, Evict(o.recorded, h)) && o.merged != []
            && NewRun(db, price, h, e, p, Evict(o.recorded, h), s)
            && (o.merged == Plain(db, price, h, e, s) <==> !CutShort(db, p, e, db.blocks[s - 1].last))
  {
    PlainIsSomething(db, price, h, e, s);
    CutShortMeans(db, price, h, e, p, lo, hi, s);
    if s <= lo {
      RedoBelow(db, price, h, e, p, lo, hi, s);
    } else if s <= hi {
      RedoInside(db, price, h, e, p, lo, hi, s);
      InsideIsPlain(db, price, h, e, p, lo, hi, s);
      PricesLength(price, Descend(db, s, s - lo));
    } else {
      RedoAbove(db, price, h, e, p, lo, hi, s);
    }
  }

  lemma RedoKeeps(db: Db, price: Pricing, h: nat, e: nat, p: seq<Entry>, s: nat)
    requires DbOk(db) && (p == [] || CachedRun(db, price, h, e, p)) && 0 < s <= |db.blocks|
    ensures var o := Redo(db, price, h, e, p, db.blocks[s - 1].last);
            && (Idle(o.walked) || (o.merged != [] && CachedRun(db, price, h, e, Evict(o.recorded, h))))
            && (Idle(o.walked) || NewRun(db, price, h, e, p, Evict(o.recorded, h), s))
            && (o.merged == Plain(db, price, h, e, s) <==> !CutShort(db, p, e, db.blocks[s - 1].last))
  {
    if h == 0 || !In(db, e, s - 1) {
      RedoNothing(db, price, h, e, p, s);
    } else if p == [] {
      PlainIsSomething(db, price, h, e, s);
      RedoEmpty(db, price, h, e, s);
    } else {
      var lo, hi :| IsRun(db, price, h, e, p, lo, hi);
      RedoFromRun(db, price, h, e, p, lo, hi, s);
    }
  }

  /** A tip that is not in a readable block of the epoch stops the walk at once. */
  lemma DeadStart(env: Env, c: Cache, req: Request)
    requires DbOk(env.db) && Inv(env, c) && StartIndex(env.db, req.epoch, req.version) == 0
    ensures Idle(WalkFor(env, c, req)) && MergedPrices(env, c, req) == [] == SimplePrices(env, req)
    ensures !CutShort(env.db, Carried(c, req.epoch), req.epoch, StartVersion(env.db, req.epoch, req.version))
  {
    var p, e, v := Carried(c, req.epoch), req.epoch, req.version;
    StartIs(env.db, e, v);
    CarriedRun(env, c, e);
    if p != [] {
      var lo, hi :| IsRun(env.db, FinalPrices(env), env.cfg.aggressiveBlockHistory, e, p, lo, hi);
      DeadVersionIsNotCached(env.db, FinalPrices(env), env.cfg.aggressiveBlockHistory, e, p, lo, hi, v);
    }
    AppendNothing(PricesOf(PricesAt(env, v), []));
  }

  lemma DeadVersionIsNotCached(db: Db, price: Pricing, h: nat, e: nat, p: seq<Entry>, lo: nat, hi: nat, v: nat)
    requires DbOk(db) && IsRun(db, price, h, e, p, lo, hi)
    requires BlockAt(db, v).None? || BlockAt(db, v).value.epoch != e
    ensures !Contains(p, e, v)
  {
    RunIsIn(db, price, h, e, p, lo, hi);
    forall j | 0 <= j < |p| ensures p[j].version != v {
      assert p[j] == EntryOf(db, price, e, lo + j) && In(db, e, lo + j) && Sound(db, lo + j);
      BlockAtIs(db, lo + j, db.blocks[lo + j].last);
    }
  }

  lemma LiveStart(env: Env, c: Cache, req: Request)
    requires DbOk(env.db) && Inv(env, c) && StartIndex(env.db, req.epoch, req.version) > 0
    ensures MergedPrices(env, c, req) == SimplePrices(env, req) <==>
            !CutShort(env.db, Carried(c, req.epoch), req.epoch, StartVersion(env.db, req.epoch, req.version))
  {
    CarriedRun(env, c, req.epoch);
    StartIs(env.db, req.epoch, req.version);
    RequestIsRedo(env, c, req);
    SimpleIsPlain(env, req);
    RedoKeeps(env.db, FinalPrices(env), env.cfg.aggressiveBlockHistory, req.epoch, Carried(c, req.epoch),
              StartIndex(env.db, req.epoch, req.version));
  }

  /**
   The prices merged from the cache are those of the plain walk exactly when the run is not cut short.
   The condition only reads the cache and the block boundaries.
   */
  lemma CacheRefinesPlainWalk(env: Env, c: Cache, req: Request)
    requires DbOk(env.db) && Inv(env, c)
    ensures MergedPrices(env, c, req) == SimplePrices(env, req) <==>
            !CutShort(env.db, Carried(c, req.epoch), req.epoch, StartVersion(env.db, req.epoch, req.version))
  {
    if StartIndex(env.db, req.epoch, req.version) == 0 {
      DeadStart(env, c, req);
    } else {
      LiveStart(env, c, req);
    }
  }

  /** What a walk leaves in the cache is a run again, unless it saw nothing at all. */
  lemma RefreshedIsRun(env: Env, c: Cache, req: Request)
    requires DbOk(env.db) && Inv(env, c) && !Idle(WalkFor(env, c, req))
    ensures MergedPrices(env, c, req) != []
    ensures CachedRun(env.db, FinalPrices(env), env.cfg.aggressiveBlockHistory, req.epoch,
                      Evict(Refreshed(env, c, req), env.cfg.aggressiveBlockHistory))
    ensures NewRun(env.db, FinalPrices(env), env.cfg.aggressiveBlockHistory, req.epoch, Carried(c, req.epoch),
                   Evict(Refreshed(env, c, req), env.cfg.aggressiveBlockHistory),
                   StartIndex(env.db, req.epoch, req.version))
  {
    CarriedRun(env, c, req.epoch);
    var s := StartIndex(env.db, req.epoch, req.version);
    if s == 0 {
      DeadStart(env, c, req);
    } else {
      LiveRefresh(env, c, req, Carried(c, req.epoch), s, WalkFor(env, c, req), Refreshed(env, c, req),
                  MergedPrices(env, c, req));
    }
  }

  lemma LiveRefresh(env: Env, c: Cache, req: Request, p: seq<Entry>, s: nat, w: Walked, recorded: seq<Entry>,
                    merged: seq<nat>)
    requires DbOk(env.db) && s == StartIndex(env.db, req.epoch, req.version) > 0 && p == Carried(c, req.epoch)
    requires p == [] || CachedRun(env.db, FinalPrices(env), env.cfg.aggressiveBlockHistory, req.epoch, p)
    requires w == WalkFor(env, c, req) && recorded == Refreshed(env, c, req) && merged == MergedPrices(env, c, req)
    requires !Idle(w)
    ensures var h := env.cfg.aggressiveBlockHistory;
            && merged != []
            && CachedRun(env.db, FinalPrices(env), h, req.epoch, Evict(recorded, h))
            && NewRun(env.db, FinalPrices(env), h, req.epoch, p, Evict(recorded, h), s)
  {
    RequestIsRedo(env, c, req);
    RedoKeeps(env.db, FinalPrices(env), env.cfg.aggressiveBlockHistory, req.epoch, p, s);
  }

  // ---------------------------------------------------------------------------------------------
  // The three estimates
  // ---------------------------------------------------------------------------------------------

  ghost function CountBelow(s: seq<nat>, x: nat): nat {
    if s == [] then 0 else (if s[0] < x then 1 else 0) + CountBelow(s[1..], x)
  }

  predicate AtLeast(s: seq<nat>, lo: nat) {
    forall i :: 0 <= i < |s| ==> lo <= s[i]
  }

  predicate Ascending(s: seq<nat>) {
    s == [] || (AtLeast(s[1..], s[0]) && Ascending(s[1..]))
  }

  lemma {:induction false} InsertionAscends(s: seq<nat>, x: nat, lo: nat)
    requires Ascending(s) && AtLeast(s, lo) && lo <= x
    ensures Ascending(Insertion(s, x)) && AtLeast(Insertion(s, x), lo)
  {
    if s == [] || x <= s[0] {
      assert ([x] + s)[1..] == s;
      assert forall i :: 0 < i < |s| ==> s[i] == s[1..][i - 1];
    } else {
      InsertionAscends(s[1..], x, s[0]);
      var t := Insertion(s[1..], x);
      assert ([s[0]] + t)[1..] == t;
    }
  }

  lemma {:induction false} InsertionPermutes(s: seq<nat>, x: nat)
    ensures multiset(Insertion(s, x)) == multiset(s) + multiset{x}
  {
    if s != [] && x > s[0] {
      InsertionPermutes(s[1..], x);
      assert s == [s[0]] + s[1..];
    }
  }

  lemma {:induction false} InsertionCount(s: seq<nat>, x: nat, y: nat)
    ensures CountBelow(Insertion(s, x), y) == CountBelow(s, y) + if x < y then 1 else 0
  {
    if s == [] || x <= s[0] {
      assert ([x] + s)[1..] == s;
    } else {
      InsertionCount(s[1..], x, y);
      var t := Insertion(s[1..], x);
      assert ([s[0]] + t)[1..] == t;
    }
  }

  lemma {:induction false} SortCount(s: seq<nat>, y: nat)
    ensures CountBelow(Sort(s), y) == CountBelow(s, y)
  {
    if s != [] {
      SortCount(s[1..], y);
      InsertionCount(Sort(s[1..]), s[0], y);
    }
  }

  lemma {:induction false} SortAscends(s: seq<nat>)
    ensures Ascending(Sort(s))
  {
    if s != [] {
      SortAscends(s[1..]);
      InsertionAscends(Sort(s[1..]), s[0], 0);
    }
  }

  lemma {:induction false} SortPermutes(s: seq<nat>)
    ensures multiset(Sort(s)) == multiset(s)
  {
    if s != [] {
      SortPermutes(s[1..]);
      InsertionPermutes(Sort(s[1..]), s[0]);
      assert s == [s[0]] + s[1..];
    }
  }

  lemma SameSize(s: seq<nat>, t: seq<nat>)
    requires multiset(s) == multiset(t)
    ensures |s| == |t| && forall k :: 0 <= k < |t| ==> t[k] in s
  {
    assert |s| == |multiset(s)| && |t| == |multiset(t)|;
    forall k | 0 <= k < |t| ensures t[k] in s { assert t[k] in multiset(t); }
  }

  lemma {:induction false} NoneBelow(t: seq<nat>, y: nat)
    requires AtLeast(t, y)
    ensures CountBelow(t, y) == 0
  {
    if t != [] { NoneBelow(t[1..], y); }
  }

  lemma {:induction false} CountInAscending(t: seq<nat>, k: nat, y: nat)
    requires Ascending(t) && k < |t|
    ensures y <= t[k] ==> CountBelow(t, y) <= k
    ensures t[k] < y ==> k < CountBelow(t, y)
  {
    if k > 0 {
      assert t[k] == t[1..][k - 1];
      CountInAscending(t[1..], k - 1, y);
    } else if y <= t[0] {
      NoneBelow(t[1..], y);
    }
  }

  /** Entry `k` of the sorted list is the `k`-th smallest price: at most `k` below it, more than `k` up to it. */
  lemma OrderStatistic(s: seq<nat>, k: nat)
    requires k < |s|
    ensures |Sort(s)| == |s| && IsRank(s, k, Sort(s)[k])
  {
    SortAscends(s);
    SortPermutes(s);
    SameSize(s, Sort(s));
    RankOf(s, Sort(s), k, Sort(s)[k]);
  }

  lemma RankOf(s: seq<nat>, t: seq<nat>, k: nat, x: nat)
    requires t == Sort(s) && Ascending(t) && k < |t| && t[k] == x && x in s
    ensures IsRank(s, k, x)
  {
    CountInAscending(t, k, x);
    CountInAscending(t, k, x + 1);
    SortCount(s, x);
    SortCount(s, x + 1);
  }

  ghost predicate IsRank(s: seq<nat>, k: nat, x: nat) {
    x in s && CountBelow(s, x) <= k < CountBelow(s, x + 1)
  }

  /** Low: the least of the recent prices. */
  ghost predicate IsLow(cfg: EstimationConfig, minPrice: nat, prices: seq<nat>, low: nat) {
    var recent := Take(prices, cfg.lowBlockHistory);
    if recent == [] then low == minPrice else low in recent && forall x :: x in recent ==> low <= x
  }

  /** Market: the middle recent price, but not below low. */
  ghost predicate IsMarket(cfg: EstimationConfig, prices: seq<nat>, low: nat, market: nat) {
    var recent := Take(prices, cfg.marketBlockHistory);
    exists m :: IsRank(recent, |recent| / 2, m) && market == Max(low, m)
  }

  /** Aggressive: the bucket above the 90th percentile, and above market. */
  ghost predicate IsAggressive(cfg: EstimationConfig, prices: seq<nat>, market: nat, aggressive: nat) {
    exists p90 ::
      IsRank(prices, |prices| * 9 / 10, p90) && aggressive == NextBucket(cfg.broadcastBuckets, Max(market, p90))
  }

  /** What is computed from sorted lists of the right lengths. */
  lemma EstimationParts(cfg: EstimationConfig, minPrice: nat, prices: seq<nat>, latest: seq<nat>, sorted: seq<nat>)
    requires latest == Sort(Take(prices, cfg.marketBlockHistory)) && sorted == Sort(prices)
    requires |latest| == Min(cfg.marketBlockHistory, |prices|) && |sorted| == |prices|
    ensures var r := EstimationFrom(cfg, minPrice, prices);
            if prices == [] || cfg.marketBlockHistory == 0 then r == None
            else
              var low := LowPrice(cfg, minPrice, prices);
              var market := Max(low, latest[|latest| / 2]);
              var p90 := Max(market, sorted[|sorted| * 9 / 10]);
              r == Some(GasEstimation(low, market, NextBucket(cfg.broadcastBuckets, p90)))
  {
  }

  /** An estimate exists exactly when there is a price and market blocks are looked at. */
  lemma EstimationIs(cfg: EstimationConfig, minPrice: nat, prices: seq<nat>)
    ensures var r := EstimationFrom(cfg, minPrice, prices);
            && (r.Some? <==> prices != [] && cfg.marketBlockHistory > 0)
            && (r.Some? ==>
                  && r.value.Ordered()
                  && IsLow(cfg, minPrice, prices, r.value.deprioritized)
                  && IsMarket(cfg, prices, r.value.deprioritized, r.value.regular)
                  && IsAggressive(cfg, prices, r.value.regular, r.value.prioritized))
  {
    var recent := Take(prices, cfg.marketBlockHistory);
    SortPermutes(recent);
    SortPermutes(prices);
    SameSize(recent, Sort(recent));
    SameSize(prices, Sort(prices));
    EstimationParts(cfg, minPrice, prices, Sort(recent), Sort(prices));
    if prices != [] && cfg.marketBlockHistory > 0 {
      OrderStatistic(recent, |recent| / 2);
      OrderStatistic(prices, |prices| * 9 / 10);
    }
  }

  // ---------------------------------------------------------------------------------------------
  // Runs of requests
  // ---------------------------------------------------------------------------------------------

  ghost function Started(): Cache {
    Cache(None, None, None, [])
  }

  ghost function After(env: Env, reqs: seq<Request>): Cache {
    if reqs == [] then Started()
    else Estimate(env, After(env, reqs[..|reqs| - 1]), reqs[|reqs| - 1]).0
  }

  lemma RecomputeKeepsInv(env: Env, c: Cache, req: Request)
    requires DbOk(env.db) && Inv(env, c) && env.cfg.marketBlockHistory > 0
    ensures Inv(env, Recompute(env, c, req).0)
  {
    var minPrice := env.chain(req.epoch).minGasUnitPrice;
    if Idle(WalkFor(env, c, req)) {
      CarriedRun(env, c, req.epoch);
    } else {
      RefreshedIsRun(env, c, req);
      EstimationIs(env.cfg, minPrice, MergedPrices(env, c, req));
    }
  }

  /** Every request, with any tip, keeps the cache a run of correct prices. */
  lemma EstimateKeepsInv(env: Env, c: Cache, req: Request)
    requires DbOk(env.db) && Inv(env, c) && env.cfg.marketBlockHistory > 0
    ensures Inv(env, Estimate(env, c, req).0)
  {
    RecomputeKeepsInv(env, c, req);
  }

  lemma {:induction false} RunsKeepInv(env: Env, reqs: seq<Request>)
    requires DbOk(env.db) && env.cfg.marketBlockHistory > 0
    ensures Inv(env, After(env, reqs)) && |After(env, reqs).prices| <= env.cfg.aggressiveBlockHistory
    decreases |reqs|
  {
    if reqs != [] {
      RunsKeepInv(env, reqs[..|reqs| - 1]);
      EstimateKeepsInv(env, After(env, reqs[..|reqs| - 1]), reqs[|reqs| - 1]);
    }
  }

  // ---------------------------------------------------------------------------------------------
  // Every estimate is ordered
  // ---------------------------------------------------------------------------------------------

  predicate RemembersOrdered(c: Cache) {
    c.estimation.Some? ==> c.estimation.value.Ordered()
  }

  predicate Overridden(cfg: EstimationConfig) {
    cfg.enabled && cfg.staticOverride.Some?
  }

  lemma OneEstimateIsOrdered(env: Env, c: Cache, req: Request)
    requires RemembersOrdered(c)
    ensures RemembersOrdered(Estimate(env, c, req).0)
    ensures Overridden(env.cfg) || Estimate(env, c, req).1.Ordered()
  {
    if !Idle(WalkFor(env, c, req)) {
      EstimationIs(env.cfg, env.chain(req.epoch).minGasUnitPrice, MergedPrices(env, c, req));
    }
  }

  lemma {:induction false} RunsRememberOrdered(env: Env, reqs: seq<Request>)
    ensures RemembersOrdered(After(env, reqs))
    decreases |reqs|
  {
    if reqs != [] {
      RunsRememberOrdered(env, reqs[..|reqs| - 1]);
      OneEstimateIsOrdered(env, After(env, reqs[..|reqs| - 1]), reqs[|reqs| - 1]);
    }
  }

  /**
   After any requests, on any database and with any configuration, an estimate that is computed, defaulted or served
   from the cache is ordered; the static override is the sole exception.
   */
  lemma EveryEstimateIsOrdered(env: Env, reqs: seq<Request>, req: Request)
    ensures Overridden(env.cfg) || Estimate(env, After(env, reqs), req).1.Ordered()
  {
    RunsRememberOrdered(env, reqs);
    OneEstimateIsOrdered(env, After(env, reqs), req);
  }

  // ---------------------------------------------------------------------------------------------
  // What a recomputation uses
  // ---------------------------------------------------------------------------------------------

  /** Blocks of the database, of one epoch, each strictly before the one ahead of it. */
  ghost predicate Distinct(db: Db, blocks: seq<Blk>, e: nat) {
    && (forall i :: 0 <= i < |blocks| ==> blocks[i] in db.blocks && blocks[i].epoch == e)
    && (forall i, j :: 0 <= i < j < |blocks| ==> blocks[j].last < blocks[i].first)
  }

  lemma DescendIsDistinct(db: Db, e: nat, s: nat, m: nat)
    requires DbOk(db) && m <= s <= |db.blocks| && Low(db, e, s) <= s - m
    ensures Distinct(db, Descend(db, s, m), e)
  {
    var blocks := Descend(db, s, m);
    LowIsIn(db, e, s);
    forall i | 0 <= i < m ensures blocks[i] in db.blocks && blocks[i].epoch == e {
      DescendAt(db, s, m, i);
      assert In(db, e, s - 1 - i);
    }
    forall i, j | 0 <= i < j < m ensures blocks[j].last < blocks[i].first {
      DescendAt(db, s, m, i);
      DescendAt(db, s, m, j);
      assert Older(db, s - 1 - j, s - 1 - i);
    }
  }

  /** The merged prices are those of consecutive blocks going down from the start. */
  ghost predicate Consecutive(db: Db, price: Pricing, e: nat, s: nat, merged: seq<nat>)
    requires s <= |db.blocks|
  {
    exists m: nat :: m <= s && Low(db, e, s) <= s - m && merged == PricesOf(price, Descend(db, s, m))
  }

  lemma PlainIsConsecutive(db: Db, price: Pricing, h: nat, e: nat, s: nat)
    requires s <= |db.blocks|
    ensures Consecutive(db, price, e, s, Plain(db, price, h, e, s))
  {
    var m := Min(h, s - Low(db, e, s));
    assert m <= s && Low(db, e, s) <= s - m;
  }

  lemma RedoIsConsecutive(db: Db, price: Pricing, h: nat, e: nat, p: seq<Entry>, s: nat)
    requires DbOk(db) && (p == [] || CachedRun(db, price, h, e, p)) && 0 < s <= |db.blocks|
    ensures Consecutive(db, price, e, s, Redo(db, price, h, e, p, db.blocks[s - 1].last).merged)
  {
    var o := Redo(db, price, h, e, p, db.blocks[s - 1].last);
    PlainIsConsecutive(db, price, h, e, s);
    RedoKeeps(db, price, h, e, p, s);
    if o.merged != Plain(db, price, h, e, s) {
      var lo, hi :| IsRun(db, price, h, e, p, lo, hi);
      CutShortMeans(db, price, h, e, p, lo, hi, s);
      RedoInsideIsConsecutive(db, price, h, e, p, lo, hi, s);
    }
  }

  lemma RedoInsideIsConsecutive(db: Db, price: Pricing, h: nat, e: nat, p: seq<Entry>, lo: nat, hi: nat, s: nat)
    requires DbOk(db) && IsRun(db, price, h, e, p, lo, hi) && lo < s < hi
    ensures Consecutive(db, price, e, s, Redo(db, price, h, e, p, db.blocks[s - 1].last).merged)
  {
    RunIsIn(db, price, h, e, p, lo, hi);
    LowJoin(db, e, lo, s);
    RedoInside(db, price, h, e, p, lo, hi, s);
    assert s - lo <= s && Low(db, e, s) <= s - (s - lo);
  }

  /**
   In every run, whatever the tip: the prices used are those of distinct blocks of the database and the request's epoch,
   no block twice;
   and once a block was collected or met in the cache there is an estimate, so that neither branch for empty prices is
   taken.
   */
  lemma NoBlockCountedTwice(env: Env, reqs: seq<Request>, req: Request)
    requires DbOk(env.db) && env.cfg.marketBlockHistory > 0
    ensures exists blocks :: Distinct(env.db, blocks, req.epoch)
                             && MergedPrices(env, After(env, reqs), req) == PricesOf(FinalPrices(env), blocks)
    ensures !Idle(WalkFor(env, After(env, reqs), req)) ==>
              EstimationFrom(env.cfg, env.chain(req.epoch).minGasUnitPrice,
                             MergedPrices(env, After(env, reqs), req)).Some?
  {
    var c, s := After(env, reqs), StartIndex(env.db, req.epoch, req.version);
    RunsKeepInv(env, reqs);
    if s == 0 {
      DeadStart(env, c, req);
      assert Distinct(env.db, [], req.epoch) && PricesOf(FinalPrices(env), []) == [];
    } else {
      LiveIsDistinct(env, c, req);
    }
    if !Idle(WalkFor(env, c, req)) {
      RefreshedIsRun(env, c, req);
      EstimationIs(env.cfg, env.chain(req.epoch).minGasUnitPrice, MergedPrices(env, c, req));
    }
  }

  lemma LiveIsDistinct(env: Env, c: Cache, req: Request)
    requires DbOk(env.db) && Inv(env, c) && StartIndex(env.db, req.epoch, req.version) > 0
    ensures exists blocks :: Distinct(env.db, blocks, req.epoch)
                             && MergedPrices(env, c, req) == PricesOf(FinalPrices(env), blocks)
  {
    var s, e, price := StartIndex(env.db, req.epoch, req.version), req.epoch, FinalPrices(env);
    CarriedRun(env, c, e);
    RequestIsRedo(env, c, req);
    RedoIsConsecutive(env.db, price, env.cfg.aggressiveBlockHistory, e, Carried(c, e), s);
    var merged := MergedPrices(env, c, req);
    var m: nat :| m <= s && Low(env.db, e, s) <= s - m && merged == PricesOf(price, Descend(env.db, s, m));
    DescendIsDistinct(env.db, e, s, m);
  }

  // ---------------------------------------------------------------------------------------------
  // Tips that do not go back
  // ---------------------------------------------------------------------------------------------

  /** Within an epoch the ledger version never goes back. */
  ghost predicate Forward(reqs: seq<Request>) {
    forall i :: 0 < i < |reqs| && reqs[i - 1].epoch == reqs[i].epoch ==> reqs[i - 1].version <= reqs[i].version
  }

  /** The cache belongs to the epoch of the last request and holds blocks below its tip. */
  ghost predicate Behind(env: Env, c: Cache, req: Request) {
    && c.lastUpdatedEpoch == Some(req.epoch)
    && Below(c.prices, req.version)
  }

  ghost predicate Below(p: seq<Entry>, tip: nat) {
    p != [] ==> p[|p| - 1].version < tip || p[|p| - 1].version == 0
  }

  lemma RunBelowTip(db: Db, price: Pricing, h: nat, e: nat, p: seq<Entry>, lo: nat, hi: nat, tip: nat)
    requires DbOk(db) && IsRun(db, price, h, e, p, lo, hi) && Below(p, tip) && StartIndex(db, e, tip) > 0
    ensures hi <= StartIndex(db, e, tip)
  {
    assert p[|p| - 1] == EntryOf(db, price, e, hi - 1);
    TipIsAbove(db, e, tip, hi - 1);
  }

  /** The walk starts at or above every block that ends below the tip. */
  lemma TipIsAbove(db: Db, e: nat, tip: nat, i: nat)
    requires DbOk(db) && i < |db.blocks| && (db.blocks[i].last < tip || db.blocks[i].last == 0)
    requires StartIndex(db, e, tip) > 0
    ensures i < StartIndex(db, e, tip)
  {
    var t := FindIndex(db.blocks, tip).value;
    if 0 < i { assert Older(db, 0, i); }
    if t <= i - 1 { assert Older(db, t, i); }
  }

  lemma ForwardIsNotCutShort(env: Env, c: Cache, req: Request)
    requires DbOk(env.db) && Inv(env, c) && Below(Carried(c, req.epoch), req.version)
    requires StartIndex(env.db, req.epoch, req.version) > 0
    ensures !CutShort(env.db, Carried(c, req.epoch), req.epoch, StartVersion(env.db, req.epoch, req.version))
  {
    var p, e, db := Carried(c, req.epoch), req.epoch, env.db;
    CarriedRun(env, c, e);
    StartIs(db, e, req.version);
    if p != [] {
      var lo, hi :| IsRun(db, FinalPrices(env), env.cfg.aggressiveBlockHistory, e, p, lo, hi);
      RunBelowTip(db, FinalPrices(env), env.cfg.aggressiveBlockHistory, e, p, lo, hi, req.version);
      CutShortMeans(db, FinalPrices(env), env.cfg.aggressiveBlockHistory, e, p, lo, hi,
                    StartIndex(db, e, req.version));
    }
  }

  lemma NewRunIsBelow(db: Db, price: Pricing, h: nat, e: nat, p: seq<Entry>, q: seq<Entry>, tip: nat)
    requires DbOk(db) && Below(p, tip) && NewRun(db, price, h, e, p, q, StartIndex(db, e, tip))
    ensures Below(q, tip)
  {
    StartIs(db, e, tip);
    if q != p {
      var s := StartIndex(db, e, tip);
      var lo :| IsRun(db, price, h, e, q, lo, s);
      assert q[|q| - 1] == EntryOf(db, price, e, s - 1);
      if s > 1 { assert Older(db, 0, s - 1); }
    }
  }

  predicate Computes(cfg: EstimationConfig) {
    cfg.enabled && cfg.staticOverride.None? && cfg.marketBlockHistory > 0
  }

  /** A request leaves the cache behind its own tip. */
  lemma StaysBehind(env: Env, c: Cache, req: Request)
    requires DbOk(env.db) && Inv(env, c) && Computes(env.cfg) && Below(Carried(c, req.epoch), req.version)
    ensures Behind(env, Estimate(env, c, req).0, req)
  {
    if !Served(env.cfg, c, req) && !Idle(WalkFor(env, c, req)) {
      RefreshedIsRun(env, c, req);
      EstimationIs(env.cfg, env.chain(req.epoch).minGasUnitPrice, MergedPrices(env, c, req));
      NewRunIsBelow(env.db, FinalPrices(env), env.cfg.aggressiveBlockHistory, req.epoch, Carried(c, req.epoch),
                    Evict(Refreshed(env, c, req), env.cfg.aggressiveBlockHistory), req.version);
    }
  }

  lemma ForwardRefines(env: Env, c: Cache, req: Request)
    requires DbOk(env.db) && Inv(env, c) && Below(Carried(c, req.epoch), req.version)
    ensures MergedPrices(env, c, req) == SimplePrices(env, req)
  {
    if StartIndex(env.db, req.epoch, req.version) == 0 {
      DeadStart(env, c, req);
    } else {
      ForwardIsNotCutShort(env, c, req);
      CacheRefinesPlainWalk(env, c, req);
    }
  }

  lemma BelowNext(env: Env, c: Cache, prev: Request, req: Request)
    requires Behind(env, c, prev) && (prev.epoch == req.epoch ==> prev.version <= req.version)
    ensures Below(Carried(c, req.epoch), req.version)
  {
  }

  lemma AfterOne(env: Env, reqs: seq<Request>, i: nat)
    requires i < |reqs|
    ensures After(env, reqs[..i + 1]) == Estimate(env, After(env, reqs[..i]), reqs[i]).0
  {
    assert reqs[..i + 1][..i] == reqs[..i] && reqs[..i + 1][i] == reqs[i];
  }

  lemma {:induction false} ForwardStaysBelow(env: Env, reqs: seq<Request>, i: nat)
    requires DbOk(env.db) && Computes(env.cfg) && Forward(reqs) && i < |reqs|
    ensures Below(Carried(After(env, reqs[..i]), reqs[i].epoch), reqs[i].version)
    decreases i
  {
    if i > 0 {
      var c := After(env, reqs[..i - 1]);
      ForwardStaysBelow(env, reqs, i - 1);
      RunsKeepInv(env, reqs[..i - 1]);
      StaysBehind(env, c, reqs[i - 1]);
      AfterOne(env, reqs, i - 1);
      BelowNext(env, After(env, reqs[..i]), reqs[i - 1], reqs[i]);
    }
  }

  /** While tips move forward within an epoch, every recomputation uses exactly the prices of the plain walk. */
  lemma ForwardRunsRefine(env: Env, reqs: seq<Request>, i: nat)
    requires DbOk(env.db) && Computes(env.cfg) && Forward(reqs) && i < |reqs|
    ensures MergedPrices(env, After(env, reqs[..i]), reqs[i]) == SimplePrices(env, reqs[i])
  {
    RunsKeepInv(env, reqs[..i]);
    ForwardStaysBelow(env, reqs, i);
    ForwardRefines(env, After(env, reqs[..i]), reqs[i]);
  }

  /** So the estimate served is the one the plain walk gives: the default where it sees no block. */
  lemma ForwardEstimates(env: Env, reqs: seq<Request>, i: nat)
    requires DbOk(env.db) && Computes(env.cfg) && Forward(reqs) && i < |reqs|
    requires !Served(env.cfg, After(env, reqs[..i]), reqs[i])
    ensures var minPrice := env.chain(reqs[i].epoch).minGasUnitPrice;
            var prices := SimplePrices(env, reqs[i]);
            var g := Estimate(env, After(env, reqs[..i]), reqs[i]).1;
            if prices == [] then g == DefaultEstimation(env.cfg, minPrice)
            else Some(g) == EstimationFrom(env.cfg, minPrice, prices)
  {
    var c, req := After(env, reqs[..i]), reqs[i];
    ForwardRunsRefine(env, reqs, i);
    RunsKeepInv(env, reqs[..i]);
    EstimationIs(env.cfg, env.chain(req.epoch).minGasUnitPrice, MergedPrices(env, c, req));
    if Idle(WalkFor(env, c, req)) {
      IdleMergesNothing(env, c, req);
    } else {
      RefreshedIsRun(env, c, req);
    }
  }

  lemma IdleMergesNothing(env: Env, c: Cache, req: Request)
    requires Idle(WalkFor(env, c, req))
    ensures MergedPrices(env, c, req) == []
  {
    AppendNothing(PricesOf(PricesAt(env, req.version), []));
  }

  /** The first request leaves the blocks of its own walk. */
  lemma FirstCache(env: Env, req: Request, s: nat)
    requires DbOk(env.db) && Computes(env.cfg) && env.cfg.aggressiveBlockHistory > 0
    requires StartIndex(env.db, req.epoch, req.version) == s > 0 && In(env.db, req.epoch, s - 1)
    ensures var h := env.cfg.aggressiveBlockHistory;
            var c := Estimate(env, Started(), req).0;
            && c.lastUpdatedEpoch == Some(req.epoch)
            && IsRun(env.db, FinalPrices(env), h, req.epoch, c.prices, Max(Low(env.db, req.epoch, s), Minus(s, h)), s)
  {
    RequestIsRedo(env, Started(), req);
    RedoEmpty(env.db, FinalPrices(env), env.cfg.aggressiveBlockHistory, req.epoch, s);
    PlainIsSomething(env.db, FinalPrices(env), env.cfg.aggressiveBlockHistory, req.epoch, s);
    EstimationIs(env.cfg, env.chain(req.epoch).minGasUnitPrice, MergedPrices(env, Started(), req));
  }

  lemma InsideLoses(db: Db, price: Pricing, h: nat, e: nat, p: seq<Entry>, lo: nat, hi: nat, s: nat)
    requires DbOk(db) && IsRun(db, price, h, e, p, lo, hi) && lo < s < hi && Low(db, e, lo) < lo && h > 0
    ensures Redo(db, price, h, e, p, db.blocks[s - 1].last).merged != Plain(db, price, h, e, s)
  {
    RedoInside(db, price, h, e, p, lo, hi, s);
    InsideIsPlain(db, price, h, e, p, lo, hi, s);
  }

  lemma BackLoses(env: Env, c: Cache, req: Request, s: nat, o: Outcome)
    requires DbOk(env.db) && c.lastUpdatedEpoch == Some(req.epoch) && 0 < s < |env.db.blocks|
    requires In(env.db, req.epoch, s) && req.version == env.db.blocks[s].last
    requires o == Redo(env.db, FinalPrices(env), env.cfg.aggressiveBlockHistory, req.epoch, c.prices,
                       env.db.blocks[s - 1].last)
    requires o.merged != Plain(env.db, FinalPrices(env), env.cfg.aggressiveBlockHistory, req.epoch, s)
    ensures MergedPrices(env, c, req) != SimplePrices(env, req)
  {
    StartOf(env.db, req.epoch, s);
    RequestIsRedo(env, c, req);
    SimpleIsPlain(env, req);
  }

  /** After a first request from `hi`, a walk from one block earlier loses prices. */
  lemma FirstThenInside(env: Env, req: Request, lo: nat, s: nat, hi: nat, c: Cache, o: Outcome)
    requires DbOk(env.db) && Computes(env.cfg) && env.cfg.aggressiveBlockHistory > 1
    requires lo > 0 && s + 1 == hi == lo + env.cfg.aggressiveBlockHistory < |env.db.blocks|
    requires forall i :: lo - 1 <= i <= hi ==> In(env.db, req.epoch, i)
    requires req.version == env.db.blocks[hi].last && c == Estimate(env, Started(), req).0
    requires o == Redo(env.db, FinalPrices(env), env.cfg.aggressiveBlockHistory, req.epoch, c.prices,
                       env.db.blocks[s - 1].last)
    ensures c.lastUpdatedEpoch == Some(req.epoch)
    ensures o.merged != Plain(env.db, FinalPrices(env), env.cfg.aggressiveBlockHistory, req.epoch, s)
  {
    StartOf(env.db, req.epoch, hi);
    FirstCache(env, req, hi);
    LongLow(env.db, req.epoch, lo - 1, lo);
    LongLow(env.db, req.epoch, lo - 1, hi);
    InsideLoses(env.db, FinalPrices(env), env.cfg.aggressiveBlockHistory, req.epoch, c.prices, lo, hi, s);
  }

  /** Going back does lose prices: one block back, with older blocks of the epoch below the cached ones. */
  lemma GoingBackLosesPrices(env: Env, first: Request, second: Request, lo: nat, s: nat, hi: nat)
    requires DbOk(env.db) && Computes(env.cfg) && env.cfg.aggressiveBlockHistory > 1
    requires lo > 0 && s + 1 == hi == lo + env.cfg.aggressiveBlockHistory < |env.db.blocks|
    requires forall i :: lo - 1 <= i <= hi ==> In(env.db, first.epoch, i)
    requires first.epoch == second.epoch
    requires first.version == env.db.blocks[hi].last && second.version == env.db.blocks[s].last
    ensures MergedPrices(env, After(env, [first]), second) != SimplePrices(env, second)
  {
    AfterOne(env, [first], 0);
    assert [first][..0] == [] && [first][..1] == [first];
    var c := After(env, [first]);
    var o := Redo(env.db, FinalPrices(env), env.cfg.aggressiveBlockHistory, first.epoch, c.prices,
                  env.db.blocks[s - 1].last);
    FirstThenInside(env, first, lo, s, hi, c, o);
    BackLoses(env, c, second, s, o);
  }

  // ---------------------------------------------------------------------------------------------
  // Without market blocks
  // ---------------------------------------------------------------------------------------------

  /**
   With no market blocks every recomputation returns before old entries are dropped. Two requests far enough
   apart then leave twice the history in the cache.
   */
  lemma NoMarketNoEviction(env: Env, first: Request, second: Request, lo: nat, hi: nat, s: nat)
    requires DbOk(env.db) && env.cfg.enabled && env.cfg.staticOverride.None? && env.cfg.marketBlockHistory == 0
    requires env.cfg.aggressiveBlockHistory > 0 && hi == lo + env.cfg.aggressiveBlockHistory
    requires s == hi + env.cfg.aggressiveBlockHistory < |env.db.blocks| && first.epoch == second.epoch
    requires forall i :: lo <= i <= s ==> In(env.db, first.epoch, i)
    requires first.version == env.db.blocks[hi].last && second.version == env.db.blocks[s].last
    ensures |After(env, [first, second]).prices| == 2 * env.cfg.aggressiveBlockHistory
  {
    FirstOfTwo(env, first, lo, hi);
    var h, c := env.cfg.aggressiveBlockHistory, Estimate(env, Started(), first).0;
    var o := Redo(env.db, FinalPrices(env), h, first.epoch, c.prices, env.db.blocks[s - 1].last);
    SecondOutcome(env.db, FinalPrices(env), h, first.epoch, c.prices, lo, hi, s, o);
    GrowsTo(env, c, second, s, o);
    AfterOne(env, [first, second], 0);
    AfterOne(env, [first, second], 1);
    assert [first, second][..0] == [] && [first, second][..2] == [first, second];
  }

  lemma StartOf(db: Db, e: nat, t: nat)
    requires DbOk(db) && t > 0 && In(db, e, t)
    ensures StartIndex(db, e, db.blocks[t].last) == t
  {
    assert Sound(db, t);
    assert db.blocks[..|db.blocks|] == db.blocks;
    FindIndexIs(db, |db.blocks|, t, db.blocks[t].last);
  }

  lemma LongLow(db: Db, e: nat, lo: nat, s: nat)
    requires lo <= s && forall i :: lo <= i < s ==> In(db, e, i)
    ensures Low(db, e, s) <= lo
  {
    LowJoin(db, e, lo, s);
  }

  /** Without market blocks a walk that saw something only adds to the cache. */
  lemma NothingEvicted(env: Env, c: Cache, req: Request)
    requires env.cfg.enabled && env.cfg.staticOverride.None? && env.cfg.marketBlockHistory == 0
    requires c.lastUpdatedEpoch == None && !Idle(WalkFor(env, c, req))
    ensures Estimate(env, c, req).0 == c.(prices := Refreshed(env, c, req))
  {
    EstimationIs(env.cfg, env.chain(req.epoch).minGasUnitPrice, MergedPrices(env, c, req));
  }

  lemma RedoFirst(db: Db, price: Pricing, h: nat, e: nat, lo: nat, hi: nat)
    requires DbOk(db) && h > 0 && hi == lo + h <= |db.blocks| && forall i :: lo <= i < hi ==> In(db, e, i)
    ensures var o := Redo(db, price, h, e, [], db.blocks[hi - 1].last);
            o.recorded == RunOf(db, price, e, lo, hi) && !Idle(o.walked)
  {
    LongLow(db, e, lo, hi);
    EmptyHasRun(db, e);
    WalkOutside(db, [], e, 0, 0, hi, h);
    EmptyOutcome(db, price, h, e, hi, h, Walk(db, [], e, db.blocks[hi - 1].last, h));
  }

  lemma RedoSecond(db: Db, price: Pricing, h: nat, e: nat, p: seq<Entry>, lo: nat, hi: nat, s: nat)
    requires DbOk(db) && h > 0 && hi == lo + h && s == hi + h <= |db.blocks|
    requires p == RunOf(db, price, e, lo, hi) && forall i :: lo <= i < s ==> In(db, e, i)
    ensures var o := Redo(db, price, h, e, p, db.blocks[s - 1].last);
            |o.recorded| == 2 * h && !Idle(o.walked)
  {
    RunHasRun(db, price, e, lo, hi);
    WalkAbove(db, p, e, lo, hi, s, h);
    FollowMissed(db, price, h, e, p, lo, hi, s, Walk(db, p, e, db.blocks[s - 1].last, h));
  }

  lemma FirstOfTwo(env: Env, req: Request, lo: nat, hi: nat)
    requires DbOk(env.db) && env.cfg.enabled && env.cfg.staticOverride.None? && env.cfg.marketBlockHistory == 0
    requires env.cfg.aggressiveBlockHistory > 0 && hi == lo + env.cfg.aggressiveBlockHistory < |env.db.blocks|
    requires forall i :: lo <= i <= hi ==> In(env.db, req.epoch, i)
    requires req.version == env.db.blocks[hi].last
    ensures Estimate(env, Started(), req).0
            == Started().(prices := RunOf(env.db, FinalPrices(env), req.epoch, lo, hi))
  {
    StartOf(env.db, req.epoch, hi);
    RequestIsRedo(env, Started(), req);
    RedoFirst(env.db, FinalPrices(env), env.cfg.aggressiveBlockHistory, req.epoch, lo, hi);
    NothingEvicted(env, Started(), req);
  }

  lemma GrowsTo(env: Env, c: Cache, req: Request, s: nat, o: Outcome)
    requires DbOk(env.db) && env.cfg.enabled && env.cfg.staticOverride.None? && env.cfg.marketBlockHistory == 0
    requires c.lastUpdatedEpoch == None && 0 < s <= |env.db.blocks| && StartIndex(env.db, req.epoch, req.version) == s
    requires o == Redo(env.db, FinalPrices(env), env.cfg.aggressiveBlockHistory, req.epoch, c.prices,
                       env.db.blocks[s - 1].last)
    requires !Idle(o.walked)
    ensures Estimate(env, c, req).0.prices == o.recorded
  {
    RequestIsRedo(env, c, req);
    NothingEvicted(env, c, req);
  }

  /** What the second walk does to the run that the first one left. */
  lemma SecondOutcome(db: Db, price: Pricing, h: nat, e: nat, p: seq<Entry>, lo: nat, hi: nat, s: nat, o: Outcome)
    requires DbOk(db) && h > 0 && hi == lo + h && s == hi + h < |db.blocks|
    requires p == RunOf(db, price, e, lo, hi) && forall i :: lo <= i <= s ==> In(db, e, i)
    requires o == Redo(db, price, h, e, p, db.blocks[s - 1].last)
    ensures |o.recorded| == 2 * h && !Idle(o.walked) && StartIndex(db, e, db.blocks[s].last) == s
  {
    RedoSecond(db, price, h, e, p, lo, hi, s);
    StartOf(db, e, s);
  }
}
