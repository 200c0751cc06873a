/**
 What every request for gas prices is answered with, in every run: which earlier request its estimate was computed for,
 from which prices, and what is answered when nothing is computed.
 */
module GasAnswers {
  import opened Wrappers
  import opened GasPrices
  import opened BlockPrices
  import opened GasEstimator
  import opened GasCache
  import opened GasRuns

  /**
   The request that the answer to request `i` was computed for: the one behind the answer before, if it is of the same
   epoch and not too long ago, and request `i` itself otherwise.
   */
  function ComputedFor(expirationMs: nat, reqs: seq<Request>, i: nat): (j: nat)
    requires i < |reqs|
    ensures j <= i && reqs[j].epoch == reqs[i].epoch
    ensures j == i || reqs[i].now - reqs[j].now < expirationMs
  {
    if i == 0 then 0
    else
      var j := ComputedFor(expirationMs, reqs, i - 1);
      if reqs[j].epoch == reqs[i].epoch && reqs[i].now - reqs[j].now < expirationMs then j else i
  }

  /** The answer that goes with a list of prices: the default for none. */
  ghost function Answer(env: Env, epoch: nat, prices: seq<nat>): Option<GasEstimation> {
    if prices == [] then Some(DefaultEstimation(env.cfg, env.chain(epoch).minGasUnitPrice))
    else EstimationFrom(env.cfg, env.chain(epoch).minGasUnitPrice, prices)
  }

  /** What a recomputation answers and remembers. */
  lemma RecomputedAnswer(env: Env, c: Cache, req: Request)
    requires DbOk(env.db) && Inv(env, c) && Computes(env.cfg)
    ensures var (c', g) := Recompute(env, c, req);
            && Some(g) == Answer(env, req.epoch, MergedPrices(env, c, req))
            && c'.lastUpdatedEpoch == Some(req.epoch) && c'.lastUpdatedTime == Some(req.now) && c'.estimation == Some(g)
  {
    EstimationIs(env.cfg, env.chain(req.epoch).minGasUnitPrice, MergedPrices(env, c, req));
    if Idle(WalkFor(env, c, req)) {
      IdleMergesNothing(env, c, req);
    } else {
      RefreshedIsRun(env, c, req);
    }
  }

  /** The cache remembers the answer computed for `req`, from the prices that were merged then. */
  ghost predicate Remembers(env: Env, c: Cache, req: Request, prices: seq<nat>) {
    && c.lastUpdatedEpoch == Some(req.epoch) && c.lastUpdatedTime == Some(req.now)
    && c.estimation.Some? && c.estimation == Answer(env, req.epoch, prices)
  }

  /** The prices merged when request `j` came. */
  ghost function PricesFor(env: Env, reqs: seq<Request>, j: nat): seq<nat>
    requires j < |reqs|
  {
    MergedPrices(env, After(env, reqs[..j]), reqs[j])
  }

  ghost predicate AnswersWith(env: Env, out: (Cache, GasEstimation), req: Request, prices: seq<nat>) {
    Remembers(env, out.0, req, prices) && Some(out.1) == Answer(env, req.epoch, prices)
  }

  /** Request `i` is answered from the prices of the request it was computed for, and that is what is remembered. */
  ghost predicate Answers(env: Env, reqs: seq<Request>, i: nat)
    requires i < |reqs|
  {
    var j := ComputedFor(env.cfg.cacheExpirationMs, reqs, i);
    AnswersWith(env, Estimate(env, After(env, reqs[..i]), reqs[i]), reqs[j], PricesFor(env, reqs, j))
  }

  /** From cache `c` to `c'`: what is remembered stays while it is recent, and is otherwise computed from `prices`. */
  ghost predicate Carries(env: Env, c: Cache, req: Request, c': Cache, prices: seq<nat>) {
    forall prev: Request, known: seq<nat> {:trigger Remembers(env, c, prev, known)} ::
      Remembers(env, c, prev, known) ==>
        if prev.epoch == req.epoch && req.now - prev.now < env.cfg.cacheExpirationMs then
          Remembers(env, c', prev, known)
        else Remembers(env, c', req, prices)
  }

  lemma RequestCarries(env: Env, c: Cache, req: Request, c': Cache, prices: seq<nat>)
    requires DbOk(env.db) && Inv(env, c) && Computes(env.cfg)
    requires c' == Estimate(env, c, req).0 && prices == MergedPrices(env, c, req)
    ensures Carries(env, c, req, c', prices)
  {
    RecomputedAnswer(env, c, req);
  }

  lemma StepCarries(env: Env, reqs: seq<Request>, i: nat, c: Cache, c': Cache, prices: seq<nat>)
    requires DbOk(env.db) && Computes(env.cfg) && i < |reqs|
    requires c == After(env, reqs[..i]) && c' == After(env, reqs[..i + 1]) && prices == PricesFor(env, reqs, i)
    ensures Carries(env, c, reqs[i], c', prices)
    ensures i == 0 ==> Remembers(env, c', reqs[i], prices)
  {
    RunsKeepInv(env, reqs[..i]);
    AfterOne(env, reqs, i);
    RequestCarries(env, c, reqs[i], c', prices);
    if i == 0 {
      assert c == Started();
      RecomputedAnswer(env, c, reqs[i]);
    }
  }

  /** Over a whole run, with its caches `cs` and merged prices `ps`. */
  lemma {:induction false} LastRemembered(env: Env, reqs: seq<Request>, cs: seq<Cache>, ps: seq<seq<nat>>, i: nat)
    requires |cs| == |reqs| + 1 && |ps| == |reqs| && i < |reqs|
    requires Remembers(env, cs[1], reqs[0], ps[0])
    requires forall k: nat :: k < |reqs| ==> Carries(env, cs[k], reqs[k], cs[k + 1], ps[k])
    ensures var j := ComputedFor(env.cfg.cacheExpirationMs, reqs, i);
            Remembers(env, cs[i + 1], reqs[j], ps[j])
  {
    if i > 0 {
      LastRemembered(env, reqs, cs, ps, i - 1);
      assert Carries(env, cs[i], reqs[i], cs[i + 1], ps[i]);
    }
  }

  /** The caches and merged prices of a run. */
  ghost predicate Traced(env: Env, reqs: seq<Request>, cs: seq<Cache>, ps: seq<seq<nat>>) {
    && |cs| == |reqs| + 1 && |ps| == |reqs|
    && (forall k: nat {:trigger cs[k]} :: k <= |reqs| ==> cs[k] == After(env, reqs[..k]))
    && (forall k: nat {:trigger ps[k]} :: k < |reqs| ==> ps[k] == PricesFor(env, reqs, k))
  }

  lemma TraceCarries(env: Env, reqs: seq<Request>, cs: seq<Cache>, ps: seq<seq<nat>>, k: nat)
    requires DbOk(env.db) && Computes(env.cfg) && Traced(env, reqs, cs, ps) && k < |reqs|
    ensures Carries(env, cs[k], reqs[k], cs[k + 1], ps[k])
    ensures k == 0 ==> Remembers(env, cs[k + 1], reqs[k], ps[k])
  {
    StepCarries(env, reqs, k, cs[k], cs[k + 1], ps[k]);
  }

  lemma TraceRemembers(env: Env, reqs: seq<Request>, cs: seq<Cache>, ps: seq<seq<nat>>, i: nat, j: nat)
    requires DbOk(env.db) && Computes(env.cfg) && Traced(env, reqs, cs, ps) && i < |reqs|
    requires j == ComputedFor(env.cfg.cacheExpirationMs, reqs, i)
    ensures Remembers(env, cs[i + 1], reqs[j], ps[j])
  {
    forall k: nat | k < |reqs|
      ensures Carries(env, cs[k], reqs[k], cs[k + 1], ps[k]) && (k == 0 ==> Remembers(env, cs[k + 1], reqs[k], ps[k]))
    {
      TraceCarries(env, reqs, cs, ps, k);
    }
    LastRemembered(env, reqs, cs, ps, i);
  }

  lemma RemembersLast(env: Env, reqs: seq<Request>, i: nat, c: Cache, j: nat, prices: seq<nat>)
    requires DbOk(env.db) && Computes(env.cfg) && i < |reqs| && c == After(env, reqs[..i + 1])
    requires j == ComputedFor(env.cfg.cacheExpirationMs, reqs, i) && prices == PricesFor(env, reqs, j)
    ensures Remembers(env, c, reqs[j], prices)
  {
    var cs := seq(|reqs| + 1, k requires 0 <= k <= |reqs| => After(env, reqs[..k]));
    var ps := seq(|reqs|, k requires 0 <= k < |reqs| => PricesFor(env, reqs, k));
    TraceRemembers(env, reqs, cs, ps, i, j);
    assert cs[i + 1] == c && ps[j] == prices;
  }

  lemma AnswerIsRemembered(env: Env, c: Cache, req: Request, out: (Cache, GasEstimation))
    requires DbOk(env.db) && Inv(env, c) && Computes(env.cfg) && out == Estimate(env, c, req)
    ensures Some(out.1) == out.0.estimation
  {
    RecomputedAnswer(env, c, req);
  }

  /**
   In every run each request is answered with the estimate of the request it was computed for, the last one of its epoch
   that found nothing recent enough: recomputed after the expiration time and never before.
   */
  lemma EveryAnswerIs(env: Env, reqs: seq<Request>, i: nat)
    requires DbOk(env.db) && Computes(env.cfg) && i < |reqs|
    ensures Answers(env, reqs, i)
  {
    var c, j := After(env, reqs[..i]), ComputedFor(env.cfg.cacheExpirationMs, reqs, i);
    var out := Estimate(env, c, reqs[i]);
    assert Some(out.1) == out.0.estimation by {
      RunsKeepInv(env, reqs[..i]);
      AnswerIsRemembered(env, c, reqs[i], out);
    }
    AfterOne(env, reqs, i);
    RemembersLast(env, reqs, i, out.0, j, PricesFor(env, reqs, j));
  }

  /** While tips move forward, that estimate is the one that the plain walk gives for that request. */
  lemma ForwardAnswersArePlain(env: Env, reqs: seq<Request>, i: nat)
    requires DbOk(env.db) && Computes(env.cfg) && Forward(reqs) && i < |reqs|
    ensures var j := ComputedFor(env.cfg.cacheExpirationMs, reqs, i);
            Some(Estimate(env, After(env, reqs[..i]), reqs[i]).1)
            == Answer(env, reqs[j].epoch, SimplePrices(env, reqs[j]))
  {
    EveryAnswerIs(env, reqs, i);
    ForwardRunsRefine(env, reqs, ComputedFor(env.cfg.cacheExpirationMs, reqs, i));
  }

  /**
   Without computing: the minimum twice and the bucket above it when estimation is off; the configured numbers when they
   are overridden. The cache is left alone, and no block is priced.
   */
  lemma AnswersWithoutComputing(env: Env, c: Cache, req: Request)
    requires !env.cfg.enabled || env.cfg.staticOverride.Some?
    ensures Estimate(env, c, req).0 == c && !Aborts(env, c, req)
    ensures !env.cfg.enabled ==>
              var g := Estimate(env, c, req).1;
              var m := env.chain(req.epoch).minGasUnitPrice;
              g.deprioritized == m && g.regular == m && RoundsTo(env.cfg.broadcastBuckets, m, g.prioritized)
    ensures env.cfg.enabled ==>
              var g := Estimate(env, c, req).1;
              (g.deprioritized, g.regular, g.prioritized) == env.cfg.staticOverride.value
  {
    BucketRounds(env.cfg.broadcastBuckets, env.chain(req.epoch).minGasUnitPrice);
  }

  /** The default: the minimum twice and the bucket above it. */
  lemma DefaultIs(cfg: EstimationConfig, minPrice: nat)
    ensures var g := DefaultEstimation(cfg, minPrice);
            g.deprioritized == minPrice && g.regular == minPrice
            && RoundsTo(cfg.broadcastBuckets, minPrice, g.prioritized)
  {
    BucketRounds(cfg.broadcastBuckets, minPrice);
  }

  // ---------------------------------------------------------------------------------------------
  // What a block's price is made of
  // ---------------------------------------------------------------------------------------------

  /** How many of a block's transactions are read: those up to the ledger version, and never the last. */
  function ReadOf(b: Blk, ledgerVersion: nat): nat
    requires b.first <= b.last
  {
    if ledgerVersion < b.first then 0
    else if ledgerVersion < b.last then ledgerVersion + 1 - b.first
    else b.last - b.first
  }

  /** The database reads the first `n` transactions of a block: they are there, and not too many for one request. */
  predicate CanRead(floor: nat, b: Blk, n: nat) {
    n == 0 || (floor <= b.first && n <= 20000)
  }

  /**
   At any ledger version a block is priced by its transactions up to there, without its last one: at its inclusion price
   if they were read and the block was full, and at the epoch's minimum otherwise.
   */
  lemma BlockPriceIs(env: Env, b: Blk, ledgerVersion: nat)
    requires b.first <= b.last && |b.txns| == b.last - b.first + 1
    requires Priceable(env.cfg, env.chain(b.epoch), b.txns[..ReadOf(b, ledgerVersion)])
    ensures var n := ReadOf(b, ledgerVersion);
            var txns, ec, p := b.txns[..n], env.chain(b.epoch), PricesAt(env, ledgerVersion)(b);
            if CanRead(env.db.floor, b, n) && Full(env.cfg, ec, txns) then
              exists m :: LeastPaid(txns, m) && RoundsTo(env.cfg.broadcastBuckets, m, p)
            else p == ec.minGasUnitPrice
  {
    var txns := b.txns[..ReadOf(b, ledgerVersion)];
    assert Scanned(b, ledgerVersion) == txns;
    PriceExactly(env.cfg, env.chain(b.epoch), txns);
  }
}
