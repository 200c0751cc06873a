/**
 What the inclusion price of a block is, in terms of its transactions alone: which positions hold user transactions,
 what they paid, what they used, and how the block ended.
 */
module BlockPrices {
  import opened Wrappers
  import opened GasPrices

  /** The positions of the user transactions. */
  function Users(txns: seq<Txn>): set<nat> {
    set i: nat | i < |txns| && txns[i].UserTxn?
  }

  /** Of these, the ones with use case `u`. */
  function UsersOf(txns: seq<Txn>, u: UseCase): set<nat> {
    set i: nat | i < |txns| && txns[i].UserTxn? && txns[i].useCase == u
  }

  /** The positions of the epilogues that say how the block ended. */
  function Marks(txns: seq<Txn>): set<nat> {
    set i: nat | i < |txns| && txns[i].BlockEpilogue? && txns[i].endInfo.Some?
  }

  /** The gas that user transactions used, from the first to the last. */
  function GasOf(txns: seq<Txn>): nat {
    if txns == [] then 0
    else (match txns[0] case UserTxn(_, used, _) => used case _ => 0) + GasOf(txns[1..])
  }

  /** `m` was paid by a user transaction, and none paid less. */
  ghost predicate LeastPaid(txns: seq<Txn>, m: nat) {
    && (exists i: nat :: i in Users(txns) && txns[i].price == m)
    && (forall i: nat :: i in Users(txns) ==> m <= txns[i].price)
  }

  /** `p` is the first bucket above `m`, in configuration order, or `m` if there is none. */
  ghost predicate RoundsTo(buckets: seq<nat>, m: nat, p: nat) {
    || (exists i: nat :: FirstAbove(buckets, m, i) && p == buckets[i])
    || (p == m && forall i :: 0 <= i < |buckets| ==> buckets[i] <= m)
  }

  // ---------------------------------------------------------------------------------------------
  // The lists that the scan collects
  // ---------------------------------------------------------------------------------------------

  lemma OneMore(txns: seq<Txn>)
    requires txns != []
    ensures var n, t := |txns| - 1, txns[|txns| - 1];
            && Users(txns) == (if t.UserTxn? then Users(txns[..n]) + {n} else Users(txns[..n]))
            && Marks(txns) == (if t.BlockEpilogue? && t.endInfo.Some? then Marks(txns[..n]) + {n} else Marks(txns[..n]))
            && n !in Users(txns[..n]) && n !in Marks(txns[..n])
            && forall u :: UsersOf(txns, u)
                           == (if t.UserTxn? && t.useCase == u then UsersOf(txns[..n], u) + {n}
                               else UsersOf(txns[..n], u))
  {
    var n := |txns| - 1;
    assert forall i: nat :: i < n ==> txns[..n][i] == txns[i];
  }

  /** The prices listed are those of the user transactions, with as many entries. */
  lemma {:induction false} PricesAreUsers(txns: seq<Txn>)
    ensures |UserPrices(txns)| == |Users(txns)|
    ensures forall k :: 0 <= k < |UserPrices(txns)| ==>
              exists i: nat :: i in Users(txns) && UserPrices(txns)[k] == (txns[i].price, txns[i].used)
    ensures forall i: nat :: i in Users(txns) ==> (txns[i].price, txns[i].used) in UserPrices(txns)
  {
    if txns != [] {
      var n := |txns| - 1;
      var before, prices := txns[..n], UserPrices(txns);
      OneMore(txns);
      PricesAreUsers(before);
      forall k | 0 <= k < |prices|
        ensures exists i: nat :: i in Users(txns) && prices[k] == (txns[i].price, txns[i].used)
      {
        if k < |UserPrices(before)| {
          var i: nat :| i in Users(before) && UserPrices(before)[k] == (before[i].price, before[i].used);
          assert i in Users(txns) && txns[i] == before[i];
        } else {
          assert n in Users(txns);
        }
      }
      forall i: nat | i in Users(txns) ensures (txns[i].price, txns[i].used) in prices {
        if i < n { assert i in Users(before) && before[i] == txns[i]; }
      }
    }
  }

  lemma {:induction false} UsesAreUsers(txns: seq<Txn>, u: UseCase)
    ensures Uses(txns, u) == |UsersOf(txns, u)|
  {
    if txns != [] {
      OneMore(txns);
      UsesAreUsers(txns[..|txns| - 1], u);
      assert |txns| - 1 !in UsersOf(txns[..|txns| - 1], u);
    }
  }

  lemma {:induction false} EndsAreMarks(txns: seq<Txn>)
    ensures |EndInfos(txns)| == |Marks(txns)|
    ensures forall b :: b in EndInfos(txns) <==> exists i: nat :: i in Marks(txns) && txns[i].endInfo == Some(b)
  {
    if txns != [] {
      var n := |txns| - 1;
      var before := txns[..n];
      OneMore(txns);
      EndsAreMarks(before);
      forall b ensures b in EndInfos(txns) <==> exists i: nat :: i in Marks(txns) && txns[i].endInfo == Some(b) {
        if i: nat :| i in Marks(txns) && txns[i].endInfo == Some(b) {
          if i < n { assert i in Marks(before) && before[i] == txns[i]; }
        }
        if b in EndInfos(before) {
          var i: nat :| i in Marks(before) && before[i].endInfo == Some(b);
          assert i in Marks(txns) && txns[i] == before[i];
        }
        if txns[n].BlockEpilogue? && txns[n].endInfo == Some(b) { assert n in Marks(txns); }
      }
    }
  }

  lemma {:induction false} GasJoin(a: seq<(nat, nat)>, b: seq<(nat, nat)>)
    ensures GasUsed(a + b) == GasUsed(a) + GasUsed(b)
  {
    if a == [] {
      assert a + b == b;
    } else {
      assert (a + b)[1..] == a[1..] + b;
      GasJoin(a[1..], b);
    }
  }

  lemma {:induction false} UserPricesJoin(a: seq<Txn>, b: seq<Txn>)
    ensures UserPrices(a + b) == UserPrices(a) + UserPrices(b)
    decreases |b|
  {
    if b == [] {
      assert a + b == a;
    } else {
      var n := |b| - 1;
      assert (a + b)[..|a + b| - 1] == a + b[..n] && (a + b)[|a + b| - 1] == b[n];
      UserPricesJoin(a, b[..n]);
    }
  }

  /** The gas summed up is that of the user transactions. */
  lemma {:induction false} GasIsUsed(txns: seq<Txn>)
    ensures GasUsed(UserPrices(txns)) == GasOf(txns)
  {
    if txns != [] {
      assert txns == [txns[0]] + txns[1..] && [txns[0]][..0] == [];
      UserPricesJoin([txns[0]], txns[1..]);
      GasJoin(UserPrices([txns[0]]), UserPrices(txns[1..]));
      OneGas(txns[0]);
      GasIsUsed(txns[1..]);
    }
  }

  lemma OneGas(t: Txn)
    ensures GasUsed(UserPrices([t])) == match t case UserTxn(_, used, _) => used case _ => 0
  {
    assert [t][..0] == [] && UserPrices([t]) == UserPrices([]) + if t.UserTxn? then [(t.price, t.used)] else [];
    if t.UserTxn? { assert UserPrices([t]) == [(t.price, t.used)] && UserPrices([t])[1..] == []; }
  }

  lemma LeastIsPaid(txns: seq<Txn>)
    requires UserPrices(txns) != []
    ensures LeastPaid(txns, MinPrice(UserPrices(txns)))
  {
    var prices := UserPrices(txns);
    PricesAreUsers(txns);
    var k :| 0 <= k < |prices| && prices[k].0 == MinPrice(prices);
    var i: nat :| i in Users(txns) && prices[k] == (txns[i].price, txns[i].used);
    forall j: nat | j in Users(txns) ensures MinPrice(prices) <= txns[j].price {
      var l :| 0 <= l < |prices| && prices[l] == (txns[j].price, txns[j].used);
    }
  }

  lemma {:induction false} BucketRounds(buckets: seq<nat>, m: nat)
    ensures RoundsTo(buckets, m, NextBucket(buckets, m))
  {
    if exists i: nat :: FirstAbove(buckets, m, i) {
      var i: nat :| FirstAbove(buckets, m, i);
      NextBucketIsFirst(buckets, m, i);
    } else {
      NoneAbove(buckets, m, |buckets|);
      NoBucketAbove(buckets, m);
    }
  }

  lemma {:induction false} NoneAbove(buckets: seq<nat>, m: nat, n: nat)
    requires n <= |buckets| && forall i: nat :: !FirstAbove(buckets, m, i)
    ensures forall i :: 0 <= i < n ==> buckets[i] <= m
  {
    if n > 0 {
      NoneAbove(buckets, m, n - 1);
      assert !FirstAbove(buckets, m, n - 1);
    }
  }

  // ---------------------------------------------------------------------------------------------
  // The price
  // ---------------------------------------------------------------------------------------------

  /** More than half of the user transactions use one contract. */
  ghost predicate OneContract(txns: seq<Txn>) {
    exists a :: 2 * |UsersOf(txns, ContractAddress(a))| > |Users(txns)|
  }

  /**
   The block was full: it has enough user transactions, or says that its limit was reached, or, saying nothing, used as
   much gas as the limit; but not one contract alone filled it, where that counts.
   */
  ghost predicate Full(cfg: EstimationConfig, ec: EpochConfig, txns: seq<Txn>) {
    && !(ec.countMajority && OneContract(txns))
    && (|| |Users(txns)| >= cfg.fullBlockTxns
        || (Marks(txns) != {} && forall i: nat :: i in Marks(txns) ==> txns[i].endInfo == Some(true))
        || (Marks(txns) == {} && ec.blockGasLimit.Some? && GasOf(txns) >= ec.blockGasLimit.value))
  }

  lemma MajorityIsOneContract(txns: seq<Txn>)
    ensures ContractMajority(txns) <==> OneContract(txns)
  {
    PricesAreUsers(txns);
    forall a ensures Uses(txns, ContractAddress(a)) == |UsersOf(txns, ContractAddress(a))| {
      UsesAreUsers(txns, ContractAddress(a));
    }
  }

  lemma OneMark(txns: seq<Txn>)
    requires |EndInfos(txns)| == 1
    ensures EndInfos(txns)[0] <==> forall i: nat :: i in Marks(txns) ==> txns[i].endInfo == Some(true)
    ensures Marks(txns) != {}
  {
    EndsAreMarks(txns);
    var ends := EndInfos(txns);
    forall i: nat | i in Marks(txns) ensures txns[i].endInfo == Some(ends[0]) {
      var b := txns[i].endInfo.value;
      assert txns[i].endInfo == Some(b);
      assert b in ends;
    }
    assert ends[0] in ends;
  }

  /** Whether a block that is priced without a panic counts as full. */
  lemma FullExactly(cfg: EstimationConfig, ec: EpochConfig, txns: seq<Txn>)
    requires Priceable(cfg, ec, txns)
    ensures IsFull(cfg, ec, UserPrices(txns), EndInfos(txns), ec.countMajority && ContractMajority(txns))
            == Ok(Full(cfg, ec, txns))
  {
    PricesAreUsers(txns);
    MajorityIsOneContract(txns);
    GasIsUsed(txns);
    EndsAreMarks(txns);
    if |EndInfos(txns)| == 1 { OneMark(txns); }
    if |EndInfos(txns)| == 0 { assert Marks(txns) == {}; }
    if |EndInfos(txns)| > 1 { assert |Users(txns)| >= cfg.fullBlockTxns || (ec.countMajority && OneContract(txns)); }
  }

  /**
   A block that is priced without a panic has an inclusion price exactly if it was full, and the price is the least that
   a user transaction paid, rounded up to the first bucket above.
   */
  lemma PriceExactly(cfg: EstimationConfig, ec: EpochConfig, txns: seq<Txn>)
    requires Priceable(cfg, ec, txns)
    ensures MinInclusionPrice(cfg, ec, txns).Ok?
    ensures MinInclusionPrice(cfg, ec, txns).value.Some? <==> Full(cfg, ec, txns)
    ensures Full(cfg, ec, txns) ==>
              exists m :: LeastPaid(txns, m)
                          && RoundsTo(cfg.broadcastBuckets, m, MinInclusionPrice(cfg, ec, txns).value.value)
  {
    AbortsUnlessPriceable(cfg, ec, txns);
    FullExactly(cfg, ec, txns);
    if Full(cfg, ec, txns) {
      var m := MinPrice(UserPrices(txns));
      LeastIsPaid(txns);
      BucketRounds(cfg.broadcastBuckets, m);
    }
  }
}
