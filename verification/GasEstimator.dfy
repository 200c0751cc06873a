/**
 The gas price estimator and its cache of block prices (api/src/context.rs: `estimate_gas_price`).

 The database is the committed chain of blocks; lookups below `floor` fail because they are pruned.
 The ordered map of the original is a sequence of entries sorted by key.
 */
module GasEstimator {
  import opened Wrappers
  import opened GasPrices

  datatype Blk = Blk(first: nat, last: nat, epoch: nat, txns: seq<Txn>)

  datatype Db = Db(blocks: seq<Blk>, floor: nat)

  datatype Entry = Entry(epoch: nat, version: nat, price: nat)

  datatype GasEstimation = GasEstimation(deprioritized: nat, regular: nat, prioritized: nat) {
    predicate Ordered() {
      deprioritized <= regular <= prioritized
    }
  }

  datatype Cache = Cache(
    lastUpdatedEpoch: Option<nat>,
    lastUpdatedTime: Option<nat>,
    estimation: Option<GasEstimation>,
    prices: seq<Entry>)

  /** A ledger info, and the time at which it is used. */
  datatype Request = Request(epoch: nat, version: nat, now: nat)

  type ChainConfig = nat -> EpochConfig

  datatype Env = Env(cfg: EstimationConfig, chain: ChainConfig, db: Db)

  // ---------------------------------------------------------------------------------------------
  // The database
  // ---------------------------------------------------------------------------------------------

  function FindIndex(blocks: seq<Blk>, v: nat): (r: Option<nat>)
    ensures r.Some? ==> r.value < |blocks| && blocks[r.value].first <= v <= blocks[r.value].last
  {
    if blocks == [] then None
    else if blocks[|blocks| - 1].first <= v <= blocks[|blocks| - 1].last then Some(|blocks| - 1)
    else FindIndex(blocks[..|blocks| - 1], v)
  }

  function BlockAt(db: Db, v: nat): Option<Blk> {
    if v < db.floor then None
    else
      match FindIndex(db.blocks, v)
      case None => None
      case Some(i) => Some(db.blocks[i])
  }

  function Before(v: nat): nat {
    if v == 0 then 0 else v - 1
  }

  /** The transactions of a block that the price scan reads: all but the last, up to the ledger version. */
  function Scanned(b: Blk, ledgerVersion: nat): seq<Txn> {
    if b.first > ledgerVersion || b.first >= b.last || |b.txns| < b.last - b.first then []
    else b.txns[..Min(b.last - b.first, ledgerVersion - b.first + 1)]
  }

  /** The most transactions that the database reads at once. */
  const MAX_REQUEST_LIMIT: nat := 20000

  /** The database refuses to read the block: its first transactions are pruned, or there are too many. */
  predicate Refused(floor: nat, b: Blk, ledgerVersion: nat) {
    && b.first <= ledgerVersion && b.first < b.last
    && (b.first < floor || Min(b.last - b.first, ledgerVersion - b.first + 1) > MAX_REQUEST_LIMIT)
  }

  /** The price of a block that can be priced: its own if it was read and is full, else the minimum. */
  ghost function PriceAt(cfg: EstimationConfig, chain: ChainConfig, floor: nat, b: Blk, ledgerVersion: nat): nat {
    var ec := chain(b.epoch);
    if Refused(floor, b, ledgerVersion) then ec.minGasUnitPrice
    else
      match MinInclusionPrice(cfg, ec, Scanned(b, ledgerVersion))
      case Ok(Some(p)) => p
      case _ => ec.minGasUnitPrice
  }

  /** Pricing the block does not panic. */
  ghost predicate CanPrice(env: Env, b: Blk, ledgerVersion: nat) {
    Refused(env.db.floor, b, ledgerVersion) || Priceable(env.cfg, env.chain(b.epoch), Scanned(b, ledgerVersion))
  }

  type Pricing = Blk -> nat

  ghost function Pricer(cfg: EstimationConfig, chain: ChainConfig, floor: nat, ledgerVersion: nat): Pricing {
    b => PriceAt(cfg, chain, floor, b, ledgerVersion)
  }

  ghost function FinalPricer(cfg: EstimationConfig, chain: ChainConfig, floor: nat): Pricing {
    (b: Blk) => PriceAt(cfg, chain, floor, b, b.last)
  }

  /** Prices as seen at a ledger version. */
  ghost function PricesAt(env: Env, ledgerVersion: nat): Pricing {
    Pricer(env.cfg, env.chain, env.db.floor, ledgerVersion)
  }

  /** Prices of complete blocks. */
  ghost function FinalPrices(env: Env): Pricing {
    FinalPricer(env.cfg, env.chain, env.db.floor)
  }

  /** A complete block has the same price at every later ledger version. */
  lemma PriceIsStable(env: Env, b: Blk, ledgerVersion: nat)
    requires b.last <= ledgerVersion
    ensures PricesAt(env, ledgerVersion)(b) == FinalPrices(env)(b)
  {
    assert Scanned(b, ledgerVersion) == Scanned(b, b.last);
  }

  // ---------------------------------------------------------------------------------------------
  // The ordered map
  // ---------------------------------------------------------------------------------------------

  predicate KeyLess(a: Entry, b: Entry) {
    a.epoch < b.epoch || (a.epoch == b.epoch && a.version < b.version)
  }

  predicate Contains(entries: seq<Entry>, epoch: nat, version: nat) {
    exists i :: 0 <= i < |entries| && entries[i].epoch == epoch && entries[i].version == version
  }

  function Insert(entries: seq<Entry>, e: Entry): seq<Entry> {
    if entries == [] then [e]
    else if KeyLess(e, entries[0]) then [e] + entries
    else if KeyLess(entries[0], e) then [entries[0]] + Insert(entries[1..], e)
    else [e] + entries[1..]
  }

  /** The entries of `epoch` at or below `version`, in key order. */
  function UpTo(entries: seq<Entry>, epoch: nat, version: nat): seq<Entry> {
    if entries == [] then []
    else (if entries[0].epoch == epoch && entries[0].version <= version then [entries[0]] else [])
         + UpTo(entries[1..], epoch, version)
  }

  /** The prices of the last `k` entries, newest first. */
  function Newest(entries: seq<Entry>, k: nat): seq<nat>
    decreases |entries|
  {
    if entries == [] || k == 0 then []
    else [entries[|entries| - 1].price] + Newest(entries[..|entries| - 1], k - 1)
  }

  // ---------------------------------------------------------------------------------------------
  // The estimator as a function on the cache
  // ---------------------------------------------------------------------------------------------

  function DefaultEstimation(cfg: EstimationConfig, minPrice: nat): (g: GasEstimation)
    ensures g.Ordered()
  {
    GasEstimation(minPrice, minPrice, NextBucket(cfg.broadcastBuckets, minPrice))
  }

  predicate Served(cfg: EstimationConfig, c: Cache, req: Request) {
    && c.lastUpdatedEpoch == Some(req.epoch)
    && c.lastUpdatedTime.Some?
    && c.estimation.Some?
    && req.now - c.lastUpdatedTime.value < cfg.cacheExpirationMs
  }

  /** Skip the block of the tip, which may be partial. */
  function StartVersion(db: Db, epoch: nat, tip: nat): nat {
    match BlockAt(db, tip)
    case Some(b) => if b.epoch == epoch then Before(b.first) else tip
    case None => tip
  }

  datatype Walked = Walked(blocks: seq<Blk>, hit: bool, lookup: nat)

  /** Walk back over blocks of the epoch until a cached one, `k` blocks, or the end of what can be read. */
  function Walk(db: Db, cached: seq<Entry>, epoch: nat, v: nat, k: nat): (w: Walked)
    ensures |w.blocks| <= k
    ensures forall i :: 0 <= i < |w.blocks| ==> w.blocks[i].epoch == epoch
    decreases k
  {
    if k == 0 then Walked([], false, v)
    else if Contains(cached, epoch, v) then Walked([], true, v)
    else
      match BlockAt(db, v)
      case None => Walked([], false, v)
      case Some(b) =>
        if b.epoch != epoch then Walked([], false, v)
        else if Before(b.first) == 0 then Walked([b], false, 0)
        else
          var w := Walk(db, cached, epoch, Before(b.first), k - 1);
          Walked([b] + w.blocks, w.hit, w.lookup)
  }

  /** A walk continued after some blocks. */
  function Onto(blocks: seq<Blk>, w: Walked): Walked {
    Walked(blocks + w.blocks, w.hit, w.lookup)
  }

  lemma OntoNothing(blocks: seq<Blk>, hit: bool, lookup: nat)
    ensures Onto(blocks, Walked([], hit, lookup)) == Walked(blocks, hit, lookup)
  {
  }

  lemma OntoOne(blocks: seq<Blk>, b: Blk, w: Walked)
    ensures Onto(blocks, Walked([b] + w.blocks, w.hit, w.lookup)) == Onto(blocks + [b], w)
    ensures Onto(blocks, Walked([b], false, 0)) == Walked(blocks + [b], false, 0)
  {
    assert blocks + ([b] + w.blocks) == blocks + [b] + w.blocks;
  }

  ghost function PricesOf(price: Pricing, blocks: seq<Blk>): seq<nat>
    decreases |blocks|
  {
    if blocks == [] then [] else [price(blocks[0])] + PricesOf(price, blocks[1..])
  }

  /** Record blocks in the order of the walk. */
  ghost function InsertAll(price: Pricing, entries: seq<Entry>, epoch: nat, blocks: seq<Blk>): seq<Entry>
    decreases |blocks|
  {
    if blocks == [] then entries
    else InsertAll(price, Insert(entries, Entry(epoch, blocks[0].last, price(blocks[0]))), epoch, blocks[1..])
  }

  /** The plain backwards walk: no cache at all. */
  ghost function SimplePrices(env: Env, req: Request): seq<nat> {
    var start := StartVersion(env.db, req.epoch, req.version);
    PricesOf(PricesAt(env, req.version), Walk(env.db, [], req.epoch, start, env.cfg.aggressiveBlockHistory).blocks)
  }

  /** The entries a request starts from: nothing, if they belong to another epoch. */
  function Carried(c: Cache, epoch: nat): seq<Entry> {
    if c.lastUpdatedEpoch.Some? && c.lastUpdatedEpoch.value != epoch then [] else c.prices
  }

  ghost function WalkFor(env: Env, c: Cache, req: Request): Walked {
    Walk(env.db, Carried(c, req.epoch), req.epoch, StartVersion(env.db, req.epoch, req.version),
         env.cfg.aggressiveBlockHistory)
  }

  ghost function Refreshed(env: Env, c: Cache, req: Request): seq<Entry> {
    InsertAll(PricesAt(env, req.version), Carried(c, req.epoch), req.epoch, WalkFor(env, c, req).blocks)
  }

  /** Fresh prices, then cached ones from where the walk met the cache. */
  ghost function Merge(price: Pricing, h: nat, entries: seq<Entry>, epoch: nat, w: Walked): seq<nat>
    requires |w.blocks| <= h
  {
    PricesOf(price, w.blocks) + if w.hit then Newest(UpTo(entries, epoch, w.lookup), h - |w.blocks|) else []
  }

  ghost function MergedPrices(env: Env, c: Cache, req: Request): seq<nat> {
    Merge(PricesAt(env, req.version), env.cfg.aggressiveBlockHistory, Refreshed(env, c, req), req.epoch,
          WalkFor(env, c, req))
  }

  /** Drop the oldest entries beyond `k`. */
  function Evict(entries: seq<Entry>, k: nat): seq<Entry> {
    if |entries| > k then entries[|entries| - k..] else entries
  }

  function Insertion(s: seq<nat>, x: nat): seq<nat> {
    if s == [] || x <= s[0] then [x] + s else [s[0]] + Insertion(s[1..], x)
  }

  function Sort(s: seq<nat>): seq<nat> {
    if s == [] then [] else Insertion(Sort(s[1..]), s[0])
  }

  function Lowest(s: seq<nat>): (r: nat)
    requires s != []
    ensures r in s
    ensures forall x :: x in s ==> r <= x
  {
    if |s| == 1 then s[0]
    else
      assert s == [s[0]] + s[1..];
      Min(s[0], Lowest(s[1..]))
  }

  function Take(s: seq<nat>, k: nat): seq<nat> {
    s[..Min(k, |s|)]
  }

  function LowPrice(cfg: EstimationConfig, minPrice: nat, prices: seq<nat>): nat {
    var recent := Take(prices, cfg.lowBlockHistory);
    if recent == [] then minPrice else Lowest(recent)
  }

  /** None where the original finds the price list empty. */
  function EstimationFrom(cfg: EstimationConfig, minPrice: nat, prices: seq<nat>): Option<GasEstimation> {
    var low := LowPrice(cfg, minPrice, prices);
    var latest := Sort(Take(prices, cfg.marketBlockHistory));
    if |latest| / 2 >= |latest| then None
    else
      var market := Max(low, latest[|latest| / 2]);
      var sorted := Sort(prices);
      if |sorted| * 9 / 10 >= |sorted| then None
      else
        var p90 := Max(market, sorted[|sorted| * 9 / 10]);
        Some(GasEstimation(low, market, NextBucket(cfg.broadcastBuckets, p90)))
  }

  function Remember(entries: seq<Entry>, req: Request, g: GasEstimation): Cache {
    Cache(Some(req.epoch), Some(req.now), Some(g), entries)
  }

  /** Turn the merged prices into an estimation, evict and remember it. */
  function Settle(cfg: EstimationConfig, minPrice: nat, c: Cache, req: Request, entries: seq<Entry>, prices: seq<nat>)
    : (Cache, GasEstimation)
  {
    match EstimationFrom(cfg, minPrice, prices)
    case None => (c.(prices := entries), DefaultEstimation(cfg, minPrice))
    case Some(g) => (Remember(Evict(entries, cfg.aggressiveBlockHistory), req, g), g)
  }

  ghost function Recompute(env: Env, c: Cache, req: Request): (Cache, GasEstimation) {
    var minPrice := env.chain(req.epoch).minGasUnitPrice;
    var w := WalkFor(env, c, req);
    if w.blocks == [] && !w.hit then
      var g := DefaultEstimation(env.cfg, minPrice);
      (Remember(Carried(c, req.epoch), req, g), g)
    else Settle(env.cfg, minPrice, c, req, Refreshed(env, c, req), MergedPrices(env, c, req))
  }

  ghost function Estimate(env: Env, c: Cache, req: Request): (Cache, GasEstimation) {
    var cfg := env.cfg;
    if !cfg.enabled then (c, DefaultEstimation(cfg, env.chain(req.epoch).minGasUnitPrice))
    else if cfg.staticOverride.Some? then
      (c, GasEstimation(cfg.staticOverride.value.0, cfg.staticOverride.value.1, cfg.staticOverride.value.2))
    else if Served(cfg, c, req) then (c, c.estimation.value)
    else Recompute(env, c, req)
  }

  /** The request comes to a block whose pricing panics. */
  ghost predicate Aborts(env: Env, c: Cache, req: Request) {
    && env.cfg.enabled && env.cfg.staticOverride.None? && !Served(env.cfg, c, req)
    && !AllCanPrice(env, req, WalkFor(env, c, req).blocks)
  }

  ghost predicate AllCanPrice(env: Env, req: Request, blocks: seq<Blk>) {
    forall i :: 0 <= i < |blocks| ==> CanPrice(env, blocks[i], req.version)
  }

  // ---------------------------------------------------------------------------------------------
  // The estimator as the code runs it
  // ---------------------------------------------------------------------------------------------

  class Estimator {
    const cfg: EstimationConfig
    var lastUpdatedEpoch: Option<nat>
    var lastUpdatedTime: Option<nat>
    var estimation: Option<GasEstimation>
    var minInclusionPrices: seq<Entry>
    /** A panic under the write lock poisons it: every later use of the cache panics. */
    var poisoned: bool

    constructor (cfg: EstimationConfig)
      ensures this.cfg == cfg && View() == Cache(None, None, None, []) && !poisoned
    {
      this.cfg := cfg;
      poisoned := false;
      lastUpdatedEpoch, lastUpdatedTime, estimation, minInclusionPrices := None, None, None, [];
    }

    function View(): Cache
      reads this
    {
      Cache(lastUpdatedEpoch, lastUpdatedTime, estimation, minInclusionPrices)
    }

    method UpdateCachedGasEstimation(req: Request, g: GasEstimation)
      modifies this`lastUpdatedEpoch, this`estimation, this`lastUpdatedTime
      ensures View() == Remember(old(minInclusionPrices), req, g)
    {
      lastUpdatedEpoch := Some(req.epoch);
      estimation := Some(g);
      lastUpdatedTime := Some(req.now);
    }

    /** The block walk. */
    method CollectBlocks(db: Db, epoch: nat, start: nat)
        returns (blocks: seq<Blk>, cachedBlocksHit: bool, lookup: nat)
      ensures Walked(blocks, cachedBlocksHit, lookup)
              == Walk(db, minInclusionPrices, epoch, start, cfg.aggressiveBlockHistory)
    {
      var h := cfg.aggressiveBlockHistory;
      lookup := start;
      blocks := [];
      cachedBlocksHit := false;
      var i := 0;
      ghost var goal := Walk(db, minInclusionPrices, epoch, start, h);
      while i < h
        invariant 0 <= i <= h && !cachedBlocksHit
        invariant goal == Onto(blocks, Walk(db, minInclusionPrices, epoch, lookup, h - i))
      {
        if Contains(minInclusionPrices, epoch, lookup) {
          OntoNothing(blocks, true, lookup);
          cachedBlocksHit := true;
          return;
        }
        match BlockAt(db, lookup) {
          case None =>
            OntoNothing(blocks, false, lookup);
            return;
          case Some(b) =>
            if b.epoch != epoch {
              OntoNothing(blocks, false, lookup);
              return;
            }
            lookup := Before(b.first);
            OntoOne(blocks, b, Walk(db, minInclusionPrices, epoch, lookup, h - i - 1));
            blocks := blocks + [b];
            if lookup == 0 {
              return;
            }
        }
        i := i + 1;
      }
      OntoNothing(blocks, false, lookup);
    }

    /** Price the fresh blocks, newest first, and record them; `done` is false after a panic. */
    method PriceBlocks(env: Env, req: Request, blocks: seq<Blk>) returns (prices: seq<nat>, done: bool)
      requires env.cfg == cfg && forall i :: 0 <= i < |blocks| ==> blocks[i].epoch == req.epoch
      modifies this`minInclusionPrices
      ensures done <==> AllCanPrice(env, req, blocks)
      ensures done ==> prices == PricesOf(PricesAt(env, req.version), blocks)
      ensures done ==> minInclusionPrices
                       == InsertAll(PricesAt(env, req.version), old(minInclusionPrices), req.epoch, blocks)
    {
      prices := [];
      ghost var price := PricesAt(env, req.version);
      ghost var recorded := InsertAll(price, minInclusionPrices, req.epoch, blocks);
      for i := 0 to |blocks|
        invariant prices + PricesOf(price, blocks[i..]) == PricesOf(price, blocks)
        invariant InsertAll(price, minInclusionPrices, req.epoch, blocks[i..]) == recorded
        invariant forall j :: 0 <= j < i ==> CanPrice(env, blocks[j], req.version)
      {
        assert blocks[i..][0] == blocks[i] && blocks[i..][1..] == blocks[i + 1..];
        var p := PriceBlock(env, req, blocks[i]);
        if p.None? {
          return prices, false;
        }
        prices := prices + [p.value];
        minInclusionPrices := Insert(minInclusionPrices, Entry(req.epoch, blocks[i].last, p.value));
      }
      return prices, true;
    }

    /** None where the original panics. */
    method PriceBlock(env: Env, req: Request, b: Blk) returns (p: Option<nat>)
      requires env.cfg == cfg && b.epoch == req.epoch
      ensures p.Some? <==> CanPrice(env, b, req.version)
      ensures p.Some? ==> p.value == PricesAt(env, req.version)(b)
    {
      var ec := env.chain(req.epoch);
      if Refused(env.db.floor, b, req.version) {
        return Some(ec.minGasUnitPrice);
      }
      AbortsUnlessPriceable(cfg, ec, Scanned(b, req.version));
      var found := BlockMinInclusionPrice(cfg, ec, Scanned(b, req.version));
      match found {
        case Err(_) => p := None;
        case Ok(Some(price)) => p := Some(price);
        case Ok(None) => p := Some(ec.minGasUnitPrice);
      }
    }

    /** Runs under the write lock of the cache; None where the original panics. */
    method EstimateGasPrice(env: Env, req: Request) returns (g: Option<GasEstimation>)
      requires env.cfg == cfg
      modifies this
      ensures g.None? <==> (cfg.enabled && cfg.staticOverride.None? && old(poisoned)) || Aborts(env, old(View()), req)
      ensures g.Some? ==> (View(), g.value) == Estimate(env, old(View()), req) && poisoned == old(poisoned)
      ensures g.None? ==> poisoned
    {
      if !cfg.enabled {
        return Some(DefaultEstimation(cfg, env.chain(req.epoch).minGasUnitPrice));
      }
      if cfg.staticOverride.Some? {
        var o := cfg.staticOverride.value;
        return Some(GasEstimation(o.0, o.1, o.2));
      }
      if poisoned {
        return None;
      }
      if Served(cfg, View(), req) {
        return Some(estimation.value);
      }
      g := RecomputeGasPrice(env, req);
    }

    method RecomputeGasPrice(env: Env, req: Request) returns (g: Option<GasEstimation>)
      requires env.cfg == cfg && !poisoned
      modifies this
      ensures g.Some? <==> AllCanPrice(env, req, WalkFor(env, old(View()), req).blocks)
      ensures g.Some? ==> (View(), g.value) == Recompute(env, old(View()), req)
      ensures poisoned <==> g.None?
    {
      ghost var c := View();
      var minGasUnitPrice := env.chain(req.epoch).minGasUnitPrice;
      if lastUpdatedEpoch.Some? && lastUpdatedEpoch.value != req.epoch {
        minInclusionPrices := [];
      }
      var w := WalkBack(env.db, req);
      assert w == WalkFor(env, c, req);
      if w.blocks == [] && !w.hit {
        var default := DefaultEstimation(cfg, minGasUnitPrice);
        UpdateCachedGasEstimation(req, default);
        return Some(default);
      }
      var prices, done := MergePrices(env, req, w);
      if !done {
        poisoned := true;
        return None;
      }
      SettleIgnoresOldPrices(cfg, minGasUnitPrice, c, req, minInclusionPrices, prices, minInclusionPrices);
      var estimated := SettlePrices(minGasUnitPrice, req, prices);
      return Some(estimated);
    }

    method WalkBack(db: Db, req: Request) returns (w: Walked)
      ensures w == Walk(db, minInclusionPrices, req.epoch, StartVersion(db, req.epoch, req.version),
                        cfg.aggressiveBlockHistory)
    {
      var lookup := req.version;
      var tip := BlockAt(db, lookup);
      if tip.Some? && tip.value.epoch == req.epoch {
        lookup := Before(tip.value.first);
      }
      var blocks, cachedBlocksHit;
      blocks, cachedBlocksHit, lookup := CollectBlocks(db, req.epoch, lookup);
      w := Walked(blocks, cachedBlocksHit, lookup);
    }

    method MergePrices(env: Env, req: Request, w: Walked) returns (prices: seq<nat>, done: bool)
      requires env.cfg == cfg && |w.blocks| <= cfg.aggressiveBlockHistory
      requires forall i :: 0 <= i < |w.blocks| ==> w.blocks[i].epoch == req.epoch
      modifies this`minInclusionPrices
      ensures done <==> AllCanPrice(env, req, w.blocks)
      ensures done ==> minInclusionPrices
                       == InsertAll(PricesAt(env, req.version), old(minInclusionPrices), req.epoch, w.blocks)
      ensures done ==>
                prices == Merge(PricesAt(env, req.version), cfg.aggressiveBlockHistory, minInclusionPrices,
                                req.epoch, w)
    {
      var remaining := cfg.aggressiveBlockHistory - |w.blocks|;
      prices, done := PriceBlocks(env, req, w.blocks);
      if done && w.hit {
        prices := prices + Newest(UpTo(minInclusionPrices, req.epoch, w.lookup), remaining);
      }
    }

    method SettlePrices(minGasUnitPrice: nat, req: Request, prices: seq<nat>) returns (g: GasEstimation)
      modifies this`lastUpdatedEpoch, this`estimation, this`lastUpdatedTime, this`minInclusionPrices
      ensures (View(), g) == Settle(cfg, minGasUnitPrice, old(View()), req, old(minInclusionPrices), prices)
    {
      var estimated := EstimationFrom(cfg, minGasUnitPrice, prices);
      if estimated.None? {
        return DefaultEstimation(cfg, minGasUnitPrice);
      }
      g := estimated.value;
      EvictOldest(cfg.aggressiveBlockHistory);
      UpdateCachedGasEstimation(req, g);
    }

    method EvictOldest(maxBlockHistory: nat)
      modifies this`minInclusionPrices
      ensures minInclusionPrices == Evict(old(minInclusionPrices), maxBlockHistory)
    {
      ghost var all := minInclusionPrices;
      if |minInclusionPrices| > maxBlockHistory {
        var excess := |minInclusionPrices| - maxBlockHistory;
        for i := 0 to excess
          invariant minInclusionPrices == all[i..]
        {
          minInclusionPrices := minInclusionPrices[1..];
        }
      }
    }
  }

  lemma SettleIgnoresOldPrices(cfg: EstimationConfig, minPrice: nat, c: Cache, req: Request, entries: seq<Entry>,
                               prices: seq<nat>, old': seq<Entry>)
    ensures Settle(cfg, minPrice, c.(prices := old'), req, entries, prices)
            == Settle(cfg, minPrice, c, req, entries, prices)
  {
  }
}
