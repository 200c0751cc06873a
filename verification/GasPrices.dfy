/**
 The lowest gas price that got into a block (api/src/context.rs: `next_bucket`,
 `get_gas_prices_and_used`, `block_min_inclusion_price`).

 The majority fraction is taken exactly, as a pair of counts, instead of a 32-bit float.
 */
module GasPrices {
  import opened Wrappers

  datatype UseCase = PlatformUse | ContractAddress(address: nat) | OtherUse

  /** A transaction with its info; an unreadable one, or one of another kind, is skipped by the scan. */
  datatype Txn =
    | UserTxn(price: nat, used: nat, useCase: UseCase)
    | BlockEpilogue(endInfo: Option<bool>)
    | Skipped

  /** A share of the user transactions: `part` of `whole`. */
  datatype Fraction = Fraction(part: nat, whole: nat) {
    predicate AboveHalf() {
      2 * part > whole
    }
  }

  datatype EstimationConfig = EstimationConfig(
    enabled: bool,
    staticOverride: Option<(nat, nat, nat)>,
    fullBlockTxns: nat,
    lowBlockHistory: nat,
    marketBlockHistory: nat,
    aggressiveBlockHistory: nat,
    cacheExpirationMs: nat,
    broadcastBuckets: seq<nat>)

  /** What an epoch's on-chain configuration contributes. */
  datatype EpochConfig = EpochConfig(minGasUnitPrice: nat, countMajority: bool, blockGasLimit: Option<nat>)

  /** Aborts of the original: the assertion on end infos, and the minimum of an empty list. */
  datatype Abort = SeveralEndInfos | NoPrices

  // ---------------------------------------------------------------------------------------------
  // Buckets
  // ---------------------------------------------------------------------------------------------

  ghost predicate FirstAbove(buckets: seq<nat>, price: nat, i: nat) {
    i < |buckets| && buckets[i] > price && forall j :: 0 <= j < i ==> buckets[j] <= price
  }

  /** The first bucket above the price, in configuration order, or the price itself. */
  function NextBucket(buckets: seq<nat>, price: nat): (r: nat)
    ensures r >= price
  {
    if buckets == [] then price
    else if buckets[0] > price then buckets[0]
    else NextBucket(buckets[1..], price)
  }

  lemma {:induction false} NextBucketIsFirst(buckets: seq<nat>, price: nat, i: nat)
    requires FirstAbove(buckets, price, i)
    ensures NextBucket(buckets, price) == buckets[i]
  {
    if i > 0 {
      assert buckets[0] <= price && buckets[1..][i - 1] == buckets[i];
      assert FirstAbove(buckets[1..], price, i - 1);
      NextBucketIsFirst(buckets[1..], price, i - 1);
    }
  }

  lemma {:induction false} NoBucketAbove(buckets: seq<nat>, price: nat)
    requires forall j :: 0 <= j < |buckets| ==> buckets[j] <= price
    ensures NextBucket(buckets, price) == price
  {
    if buckets != [] { NoBucketAbove(buckets[1..], price); }
  }

  // ---------------------------------------------------------------------------------------------
  // Scanning a block
  // ---------------------------------------------------------------------------------------------

  function UserPrices(txns: seq<Txn>): seq<(nat, nat)> {
    if txns == [] then []
    else
      var last := txns[|txns| - 1];
      UserPrices(txns[..|txns| - 1]) + if last.UserTxn? then [(last.price, last.used)] else []
  }

  function EndInfos(txns: seq<Txn>): seq<bool> {
    if txns == [] then []
    else
      var last := txns[|txns| - 1];
      EndInfos(txns[..|txns| - 1])
      + if last.BlockEpilogue? && last.endInfo.Some? then [last.endInfo.value] else []
  }

  /** How many user transactions have this use case. */
  function Uses(txns: seq<Txn>, u: UseCase): nat {
    if txns == [] then 0
    else
      var last := txns[|txns| - 1];
      Uses(txns[..|txns| - 1], u) + if last.UserTxn? && last.useCase == u then 1 else 0
  }

  ghost function SumValues(m: map<UseCase, nat>): nat
  {
    if m == map[] then 0
    else
      var k :| k in m;
      m[k] + SumValues(m - {k})
  }

  lemma {:induction false} SumRemove(m: map<UseCase, nat>, k: UseCase)
    requires k in m
    ensures SumValues(m) == m[k] + SumValues(m - {k})
    decreases |m|
  {
    var p :| p in m && SumValues(m) == m[p] + SumValues(m - {p});
    if p != k {
      SumRemove(m - {p}, k);
      SumRemove(m - {k}, p);
      assert m - {p} - {k} == m - {k} - {p};
    }
  }

  lemma SumUpdate(m: map<UseCase, nat>, k: UseCase, v: nat)
    ensures SumValues(m[k := v]) == SumValues(m - {k}) + v
  {
    SumRemove(m[k := v], k);
    assert m[k := v] - {k} == m - {k};
  }

  lemma SumTwo(m: map<UseCase, nat>, k: UseCase, l: UseCase)
    requires k in m && l in m && k != l
    ensures SumValues(m) >= m[k] + m[l]
  {
    SumRemove(m, k);
    SumRemove(m - {k}, l);
  }

  /** The table of use counts: exactly the use cases that occur, and nothing but user transactions counted. */
  ghost predicate CountsOf(txns: seq<Txn>, counts: map<UseCase, nat>) {
    && (forall u :: u in counts <==> Uses(txns, u) > 0)
    && (forall u :: u in counts ==> counts[u] == Uses(txns, u))
    && SumValues(counts) == |UserPrices(txns)|
  }

  /** `u` has the highest count; a hash map may present any such entry as its maximum. */
  predicate IsMaximal(counts: map<UseCase, nat>, u: UseCase) {
    u in counts && forall o :: o in counts ==> counts[o] <= counts[u]
  }

  function FractionFor(counts: map<UseCase, nat>, u: UseCase, whole: nat): Option<Fraction>
    requires u in counts
  {
    if u.ContractAddress? then Some(Fraction(counts[u], whole)) else None
  }

  /** What the majority computation may return: the answer for one of the maximal entries. */
  ghost predicate MajorityOf(txns: seq<Txn>, m: Option<Fraction>) {
    exists counts ::
      && CountsOf(txns, counts)
      && (if counts == map[] then m == None
          else exists u :: IsMaximal(counts, u) && m == FractionFor(counts, u, |UserPrices(txns)|))
  }

  predicate AboveHalf(m: Option<Fraction>) {
    m.Some? && m.value.AboveHalf()
  }

  /** One contract is used by more than half of the user transactions. */
  ghost predicate ContractMajority(txns: seq<Txn>) {
    exists a :: 2 * Uses(txns, ContractAddress(a)) > |UserPrices(txns)|
  }

  /** The block-full test sees the same answer whatever order the hash map is traversed in. */
  lemma MajorityIsOrderIndependent(txns: seq<Txn>, m: Option<Fraction>)
    requires MajorityOf(txns, m)
    ensures AboveHalf(m) <==> ContractMajority(txns)
  {
    var counts :| CountsOf(txns, counts)
      && (if counts == map[] then m == None
          else exists u :: IsMaximal(counts, u) && m == FractionFor(counts, u, |UserPrices(txns)|));
    if counts != map[] {
      var u :| IsMaximal(counts, u) && m == FractionFor(counts, u, |UserPrices(txns)|);
      if AboveHalf(m) {
        assert 2 * Uses(txns, ContractAddress(u.address)) > |UserPrices(txns)|;
      }
      if ContractMajority(txns) {
        var a :| 2 * Uses(txns, ContractAddress(a)) > |UserPrices(txns)|;
        var c := ContractAddress(a);
        assert c in counts;
        if c != u { SumTwo(counts, c, u); }
      }
    }
  }

  method GetGasPricesAndUsed(txns: seq<Txn>, countMajority: bool)
      returns (prices: seq<(nat, nat)>, ends: seq<bool>, majority: Option<Fraction>)
    ensures prices == UserPrices(txns)
    ensures ends == EndInfos(txns)
    ensures if countMajority then MajorityOf(txns, majority) else majority == None
  {
    prices, ends := [], [];
    var counts: map<UseCase, nat> := map[];
    for i := 0 to |txns|
      invariant prices == UserPrices(txns[..i])
      invariant ends == EndInfos(txns[..i])
      invariant countMajority ==> CountsOf(txns[..i], counts)
    {
      assert txns[..i + 1][..i] == txns[..i];
      match txns[i] {
        case UserTxn(price, used, useCase) =>
          prices := prices + [(price, used)];
          if countMajority {
            var count := if useCase in counts then counts[useCase] else 0;
            SumUpdate(counts, useCase, count + 1);
            if useCase in counts {
              SumRemove(counts, useCase);
            } else {
              assert counts - {useCase} == counts;
            }
            counts := counts[useCase := count + 1];
          }
        case BlockEpilogue(Some(reached)) =>
          ends := ends + [reached];
        case _ =>
      }
    }
    assert txns[..|txns|] == txns;
    majority := None;
    if countMajority && counts != map[] {
      var u := MaxByCount(counts);
      majority := FractionFor(counts, u, |prices|);
    }
  }

  /** Any entry with the highest count. */
  method MaxByCount(counts: map<UseCase, nat>) returns (u: UseCase)
    requires counts != map[]
    ensures IsMaximal(counts, u)
  {
    var keys := counts.Keys;
    u :| u in keys;
    keys := keys - {u};
    while keys != {}
      invariant u in counts && keys <= counts.Keys
      invariant forall o :: o in counts && o !in keys ==> counts[o] <= counts[u]
      decreases |keys|
    {
      var k :| k in keys;
      if counts[k] > counts[u] {
        u := k;
      }
      keys := keys - {k};
    }
  }

  function GasUsed(prices: seq<(nat, nat)>): nat {
    if prices == [] then 0 else prices[0].1 + GasUsed(prices[1..])
  }

  function MinPrice(prices: seq<(nat, nat)>): (r: nat)
    requires prices != []
    ensures exists i :: 0 <= i < |prices| && prices[i].0 == r
    ensures forall i :: 0 <= i < |prices| ==> r <= prices[i].0
  {
    if |prices| == 1 then prices[0].0
    else
      var rest := MinPrice(prices[1..]);
      assert forall i :: 1 <= i < |prices| ==> prices[i] == prices[1..][i - 1];
      Min(prices[0].0, rest)
  }

  /** Whether a block counts as full. */
  function IsFull(cfg: EstimationConfig, ec: EpochConfig, prices: seq<(nat, nat)>, ends: seq<bool>, aboveHalf: bool)
    : Result<bool, Abort>
  {
    if aboveHalf then Ok(false)
    else if |prices| >= cfg.fullBlockTxns then Ok(true)
    else if ends != [] then
      if |ends| != 1 then Err(SeveralEndInfos) else Ok(ends[0])
    else if ec.blockGasLimit.Some? then Ok(GasUsed(prices) >= ec.blockGasLimit.value)
    else Ok(false)
  }

  ghost function MinInclusionPrice(cfg: EstimationConfig, ec: EpochConfig, txns: seq<Txn>): Result<Option<nat>, Abort> {
    var prices := UserPrices(txns);
    match IsFull(cfg, ec, prices, EndInfos(txns), ec.countMajority && ContractMajority(txns))
    case Err(e) => Err(e)
    case Ok(full) =>
      if !full then Ok(None)
      else if prices == [] then Err(NoPrices)
      else Ok(Some(NextBucket(cfg.broadcastBuckets, MinPrice(prices))))
  }

  method BlockMinInclusionPrice(cfg: EstimationConfig, ec: EpochConfig, txns: seq<Txn>)
      returns (r: Result<Option<nat>, Abort>)
    ensures r == MinInclusionPrice(cfg, ec, txns)
  {
    var prices, ends, majority := GetGasPricesAndUsed(txns, ec.countMajority);
    if ec.countMajority {
      MajorityIsOrderIndependent(txns, majority);
    }
    var full := IsFull(cfg, ec, prices, ends, AboveHalf(majority));
    match full {
      case Err(e) => r := Err(e);
      case Ok(isFull) =>
        if !isFull {
          r := Ok(None);
        } else if prices == [] {
          r := Err(NoPrices);
        } else {
          r := Ok(Some(NextBucket(cfg.broadcastBuckets, MinPrice(prices))));
        }
    }
  }

  /** The block contents that are priced without an abort. */
  ghost predicate Priceable(cfg: EstimationConfig, ec: EpochConfig, txns: seq<Txn>) {
    var prices, ends := UserPrices(txns), EndInfos(txns);
    if prices != [] then
      |prices| >= cfg.fullBlockTxns || |ends| <= 1 || (ec.countMajority && ContractMajority(txns))
    else
      && cfg.fullBlockTxns > 0
      && (ends == [] || ends == [false])
      && (ends == [] ==> ec.blockGasLimit != Some(0))
  }

  lemma {:induction false} UsesBounded(txns: seq<Txn>, u: UseCase)
    ensures Uses(txns, u) <= |UserPrices(txns)|
  {
    if txns != [] { UsesBounded(txns[..|txns| - 1], u); }
  }

  lemma AbortsUnlessPriceable(cfg: EstimationConfig, ec: EpochConfig, txns: seq<Txn>)
    ensures MinInclusionPrice(cfg, ec, txns).Ok? <==> Priceable(cfg, ec, txns)
    ensures MinInclusionPrice(cfg, ec, txns) == Err(NoPrices) <==>
              UserPrices(txns) == [] && (cfg.fullBlockTxns == 0 || EndInfos(txns) == [true]
                                         || (EndInfos(txns) == [] && ec.blockGasLimit == Some(0)))
  {
    if UserPrices(txns) == [] {
      forall a ensures Uses(txns, ContractAddress(a)) == 0 {
        UsesBounded(txns, ContractAddress(a));
      }
    }
  }
}
