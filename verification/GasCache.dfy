/**
 The estimator's cache agrees with a plain backwards walk.

 Invariant: in every reachable state the cached entries are one contiguous run of complete blocks of the
 current epoch with their correct prices, reaching back as far as an uncached walk would.
 */
module GasCache {
  import opened Wrappers
  import opened GasPrices
  import opened GasEstimator

  // ---------------------------------------------------------------------------------------------
  // The chain of blocks
  // ---------------------------------------------------------------------------------------------

  predicate Link(db: Db, i: nat)
    requires 0 < i < |db.blocks|
  {
    db.blocks[i].first == db.blocks[i - 1].last + 1
  }

  predicate Sound(db: Db, i: nat)
    requires i < |db.blocks|
  {
    db.blocks[i].first <= db.blocks[i].last && (db.blocks[i].epoch == 0 <==> i == 0)
  }

  predicate Older(db: Db, i: nat, j: nat)
    requires i < |db.blocks| && j < |db.blocks|
  {
    && db.blocks[i].last < db.blocks[j].first <= db.blocks[j].last
    && db.blocks[i].epoch <= db.blocks[j].epoch
  }

  /** Blocks partition the versions, epochs never go back, and genesis is version 0, alone in epoch 0. */
  ghost predicate DbOk(db: Db) {
    && db.blocks != []
    && db.blocks[0].first == 0 && db.blocks[0].last == 0
    && (forall i: nat {:trigger Sound(db, i)} :: i < |db.blocks| ==> Sound(db, i))
    && (forall i: nat {:trigger Link(db, i)} :: 0 < i < |db.blocks| ==> Link(db, i))
    && (forall i: nat, j: nat {:trigger Older(db, i, j)} :: i < j < |db.blocks| ==> Older(db, i, j))
  }

  lemma {:induction false} FindIndexIs(db: Db, n: nat, i: nat, v: nat)
    requires DbOk(db) && i < n <= |db.blocks| && db.blocks[i].first <= v <= db.blocks[i].last
    ensures FindIndex(db.blocks[..n], v) == Some(i)
  {
    var prefix := db.blocks[..n];
    assert prefix[n - 1] == db.blocks[n - 1];
    if i < n - 1 {
      assert Older(db, i, n - 1);
      assert prefix[..n - 1] == db.blocks[..n - 1];
      FindIndexIs(db, n - 1, i, v);
    }
  }

  lemma BlockAtIs(db: Db, i: nat, v: nat)
    requires DbOk(db) && i < |db.blocks| && db.blocks[i].first <= v <= db.blocks[i].last
    ensures BlockAt(db, v) == if v < db.floor then None else Some(db.blocks[i])
  {
    assert db.blocks[..|db.blocks|] == db.blocks;
    FindIndexIs(db, |db.blocks|, i, v);
  }

  /** Block `i` belongs to the epoch and can be read. */
  predicate In(db: Db, e: nat, i: nat) {
    i < |db.blocks| && db.blocks[i].epoch == e && db.blocks[i].last >= db.floor
  }

  /** Where the run of readable blocks of the epoch that ends before `hi` begins. */
  function Low(db: Db, e: nat, hi: nat): (lo: nat)
    ensures lo <= hi
  {
    if hi > 0 && In(db, e, hi - 1) then Low(db, e, hi - 1) else hi
  }

  lemma {:induction false} LowJoin(db: Db, e: nat, lo: nat, hi: nat)
    requires lo <= hi && forall i :: lo <= i < hi ==> In(db, e, i)
    ensures Low(db, e, hi) == Low(db, e, lo)
    decreases hi - lo
  {
    if lo < hi { LowJoin(db, e, lo, hi - 1); }
  }

  lemma {:induction false} LowIsIn(db: Db, e: nat, hi: nat)
    ensures forall i :: Low(db, e, hi) <= i < hi ==> In(db, e, i)
  {
    if hi > 0 && In(db, e, hi - 1) { LowIsIn(db, e, hi - 1); }
  }

  /** Readable blocks of one epoch are contiguous. */
  lemma Connected(db: Db, e: nat, i: nat, j: nat)
    requires DbOk(db) && i <= j && In(db, e, i) && In(db, e, j)
    ensures forall k :: i <= k <= j ==> In(db, e, k)
  {
    forall k | i <= k <= j ensures In(db, e, k) {
      if i < k < j { assert Older(db, i, k) && Older(db, k, j); }
    }
  }

  // ---------------------------------------------------------------------------------------------
  // Walks
  // ---------------------------------------------------------------------------------------------

  /** The `m` blocks below index `s`, newest first. */
  function Descend(db: Db, s: nat, m: nat): (r: seq<Blk>)
    requires m <= s <= |db.blocks|
    ensures |r| == m
  {
    if m == 0 then [] else [db.blocks[s - 1]] + Descend(db, s - 1, m - 1)
  }

  predicate CachedAt(db: Db, cached: seq<Entry>, e: nat, i: nat)
    requires i < |db.blocks|
  {
    Contains(cached, e, db.blocks[i].last)
  }

  /** The cached keys of the epoch are exactly those of blocks `lo` to `hi`. */
  ghost predicate HasRun(db: Db, cached: seq<Entry>, e: nat, lo: nat, hi: nat) {
    forall i: nat {:trigger CachedAt(db, cached, e, i)} ::
      i < |db.blocks| ==> (CachedAt(db, cached, e, i) <==> lo <= i < hi)
  }

  /** Going to the block before: what one turn of the walk sees. */
  lemma StepBack(db: Db, e: nat, s: nat)
    requires DbOk(db) && 0 < s <= |db.blocks|
    ensures var b := BlockAt(db, db.blocks[s - 1].last);
            if db.blocks[s - 1].last < db.floor then b == None else b == Some(db.blocks[s - 1])
    ensures In(db, e, s - 1) && Before(db.blocks[s - 1].first) == 0 ==> Low(db, e, s) == s - 1
    ensures Before(db.blocks[s - 1].first) != 0 ==> s >= 2 && Before(db.blocks[s - 1].first) == db.blocks[s - 2].last
  {
    assert Sound(db, s - 1);
    BlockAtIs(db, s - 1, db.blocks[s - 1].last);
    if s >= 2 {
      assert Link(db, s - 1) && Sound(db, s - 2);
      if s > 2 { assert Older(db, 0, s - 2); }
    }
  }

  /** One turn of the walk at an uncached block. */
  lemma WalkStep(db: Db, cached: seq<Entry>, e: nat, s: nat, k: nat)
    requires DbOk(db) && 0 < s <= |db.blocks| && k > 0
    requires !Contains(cached, e, db.blocks[s - 1].last)
    ensures var w := Walk(db, cached, e, db.blocks[s - 1].last, k);
            if !In(db, e, s - 1) then w.blocks == [] && !w.hit
            else if Before(db.blocks[s - 1].first) == 0 then w.blocks == [db.blocks[s - 1]] && !w.hit
            else
              && s >= 2
              && var rest := Walk(db, cached, e, db.blocks[s - 2].last, k - 1);
                 w == Walked([db.blocks[s - 1]] + rest.blocks, rest.hit, rest.lookup)
  {
    StepBack(db, e, s);
  }

  /** The walk by block index. */
  function Steps(db: Db, cached: seq<Entry>, e: nat, s: nat, k: nat): Walked
    requires 0 < s <= |db.blocks|
    decreases k
  {
    var b := db.blocks[s - 1];
    if k == 0 then Walked([], false, b.last)
    else if CachedAt(db, cached, e, s - 1) then Walked([], true, b.last)
    else if !In(db, e, s - 1) then Walked([], false, b.last)
    else if s <= 2 then Walked([b], false, 0)
    else
      var rest := Steps(db, cached, e, s - 1, k - 1);
      Walked([b] + rest.blocks, rest.hit, rest.lookup)
  }

  lemma EarlyBlocks(db: Db, s: nat)
    requires DbOk(db) && 0 < s <= |db.blocks|
    ensures Before(db.blocks[s - 1].first) == 0 <==> s <= 2
  {
    assert Sound(db, s - 1);
    if s >= 2 {
      assert Link(db, s - 1) && Sound(db, s - 2);
      if s > 2 { assert Older(db, 0, s - 2); }
    }
  }

  lemma {:induction false} WalkIsSteps(db: Db, cached: seq<Entry>, e: nat, s: nat, k: nat)
    requires DbOk(db) && 0 < s <= |db.blocks|
    ensures Walk(db, cached, e, db.blocks[s - 1].last, k) == Steps(db, cached, e, s, k)
    decreases k
  {
    if k > 0 && !CachedAt(db, cached, e, s - 1) {
      StepBack(db, e, s);
      EarlyBlocks(db, s);
      if In(db, e, s - 1) && s > 2 { WalkIsSteps(db, cached, e, s - 1, k - 1); }
    }
  }

  lemma LowEarly(db: Db, e: nat, s: nat)
    requires DbOk(db) && 0 < s <= 2 && s <= |db.blocks| && In(db, e, s - 1)
    ensures Low(db, e, s) == s - 1
  {
    if s == 2 { assert Sound(db, 0) && Sound(db, 1); }
  }

  /** Away from the cached run the walk takes every readable block of the epoch, up to the limit. */
  lemma {:induction false} StepsOutside(db: Db, cached: seq<Entry>, e: nat, lo: nat, hi: nat, s: nat, k: nat)
    requires DbOk(db) && HasRun(db, cached, e, lo, hi) && (s <= lo || lo >= hi)
    requires 0 < s <= |db.blocks|
    ensures var w := Steps(db, cached, e, s, k);
            w.blocks == Descend(db, s, Min(k, s - Low(db, e, s))) && !w.hit
    decreases k
  {
    if k > 0 {
      assert !CachedAt(db, cached, e, s - 1);
      if In(db, e, s - 1) {
        if s > 2 {
          StepsOutside(db, cached, e, lo, hi, s - 1, k - 1);
          DescendOne(db, s, Min(k, s - Low(db, e, s)));
        } else {
          LowEarly(db, e, s);
          DescendOne(db, s, 1);
        }
      }
    }
  }

  lemma WalkOutside(db: Db, cached: seq<Entry>, e: nat, lo: nat, hi: nat, s: nat, k: nat)
    requires DbOk(db) && HasRun(db, cached, e, lo, hi) && (s <= lo || lo >= hi)
    requires 0 < s <= |db.blocks|
    ensures var w := Walk(db, cached, e, db.blocks[s - 1].last, k);
            w.blocks == Descend(db, s, Min(k, s - Low(db, e, s))) && !w.hit
  {
    WalkIsSteps(db, cached, e, s, k);
    StepsOutside(db, cached, e, lo, hi, s, k);
  }

  lemma DescendOne(db: Db, s: nat, m: nat)
    requires 0 < m <= s <= |db.blocks|
    ensures Descend(db, s, m) == [db.blocks[s - 1]] + Descend(db, s - 1, m - 1)
    ensures m == 1 ==> Descend(db, s, m) == [db.blocks[s - 1]]
  {
  }

  /** Two neighbouring blocks of one epoch are never the first two. */
  lemma NotEarly(db: Db, e: nat, s: nat)
    requires DbOk(db) && 2 <= s <= |db.blocks| && In(db, e, s - 1) && In(db, e, s - 2)
    ensures s > 2
  {
    assert Sound(db, 0) && Sound(db, 1);
  }

  /** Above the cached run, inside the epoch, the walk takes the blocks down to the run. */
  lemma {:induction false} StepsAbove(db: Db, cached: seq<Entry>, e: nat, lo: nat, hi: nat, s: nat, k: nat)
    requires DbOk(db) && HasRun(db, cached, e, lo, hi) && lo < hi <= s <= |db.blocks|
    requires forall i :: lo <= i < s ==> In(db, e, i)
    ensures var w := Steps(db, cached, e, s, k);
            && w.blocks == Descend(db, s, Min(k, s - hi))
            && (w.hit <==> s - hi < k)
            && (w.hit ==> w.lookup == db.blocks[hi - 1].last)
    decreases k
  {
    if k > 0 {
      assert CachedAt(db, cached, e, s - 1) <==> s == hi;
      if s > hi {
        NotEarly(db, e, s);
        StepsAbove(db, cached, e, lo, hi, s - 1, k - 1);
        DescendOne(db, s, Min(k, s - hi));
      }
    }
  }

  lemma WalkAbove(db: Db, cached: seq<Entry>, e: nat, lo: nat, hi: nat, s: nat, k: nat)
    requires DbOk(db) && HasRun(db, cached, e, lo, hi) && lo < hi <= s <= |db.blocks|
    requires forall i :: lo <= i < s ==> In(db, e, i)
    ensures var w := Walk(db, cached, e, db.blocks[s - 1].last, k);
            && w.blocks == Descend(db, s, Min(k, s - hi))
            && (w.hit <==> s - hi < k)
            && (w.hit ==> w.lookup == db.blocks[hi - 1].last)
  {
    WalkIsSteps(db, cached, e, s, k);
    StepsAbove(db, cached, e, lo, hi, s, k);
  }

  // ---------------------------------------------------------------------------------------------
  // Runs of entries
  // ---------------------------------------------------------------------------------------------

  function EntryOf(db: Db, price: Pricing, e: nat, i: nat): Entry
    requires i < |db.blocks|
  {
    Entry(e, db.blocks[i].last, price(db.blocks[i]))
  }

  function RunOf(db: Db, price: Pricing, e: nat, lo: nat, hi: nat): (r: seq<Entry>)
    requires lo <= hi <= |db.blocks|
    ensures |r| == hi - lo
    ensures forall j :: 0 <= j < |r| ==> r[j] == EntryOf(db, price, e, lo + j)
    decreases hi - lo
  {
    if lo == hi then [] else RunOf(db, price, e, lo, hi - 1) + [EntryOf(db, price, e, hi - 1)]
  }

  lemma RunHasRun(db: Db, price: Pricing, e: nat, lo: nat, hi: nat)
    requires DbOk(db) && lo <= hi <= |db.blocks|
    ensures HasRun(db, RunOf(db, price, e, lo, hi), e, lo, hi)
  {
    var run, blocks := RunOf(db, price, e, lo, hi), db.blocks;
    forall i: nat | i < |blocks| ensures CachedAt(db, run, e, i) <==> lo <= i < hi {
      if lo <= i < hi {
        assert run[i - lo] == EntryOf(db, price, e, i);
      } else {
        forall j | 0 <= j < |run| ensures run[j].version != blocks[i].last {
          assert if i < lo + j then Older(db, i, lo + j) else Older(db, lo + j, i);
        }
      }
    }
  }

  lemma EmptyHasRun(db: Db, e: nat)
    ensures HasRun(db, [], e, 0, 0)
  {
  }

  ghost predicate KeysBelow(entries: seq<Entry>, e: nat, v: nat) {
    forall i :: 0 <= i < |entries| ==> entries[i].epoch == e && entries[i].version < v
  }

  ghost predicate KeysAbove(entries: seq<Entry>, e: nat, v: nat) {
    forall i :: 0 <= i < |entries| ==> entries[i].epoch == e && entries[i].version > v
  }

  lemma {:induction false} InsertBetween(a: seq<Entry>, b: seq<Entry>, x: Entry)
    requires KeysBelow(a, x.epoch, x.version) && KeysAbove(b, x.epoch, x.version)
    ensures Insert(a + b, x) == a + [x] + b
  {
    if a == [] {
      assert a + b == b;
      if b != [] { assert KeyLess(x, b[0]); }
    } else {
      assert (a + b)[0] == a[0] && (a + b)[1..] == a[1..] + b;
      assert KeyLess(a[0], x);
      InsertBetween(a[1..], b, x);
      assert a + [x] + b == [a[0]] + (a[1..] + [x] + b);
    }
  }

  lemma InsertFirst(db: Db, price: Pricing, a: seq<Entry>, b: seq<Entry>, e: nat, s: nat, m: nat)
    requires 0 < m <= s <= |db.blocks|
    requires KeysBelow(a, e, db.blocks[s - 1].last) && KeysAbove(b, e, db.blocks[s - 1].last)
    ensures InsertAll(price, a + b, e, Descend(db, s, m))
            == InsertAll(price, a + ([EntryOf(db, price, e, s - 1)] + b), e, Descend(db, s - 1, m - 1))
  {
    var x, blocks := EntryOf(db, price, e, s - 1), Descend(db, s, m);
    InsertBetween(a, b, x);
    assert a + [x] + b == a + ([x] + b);
    assert blocks[0] == db.blocks[s - 1] && blocks[1..] == Descend(db, s - 1, m - 1);
  }

  lemma KeysStep(db: Db, a: seq<Entry>, b: seq<Entry>, x: Entry, e: nat, s: nat, m: nat)
    requires DbOk(db) && 0 < m <= s <= |db.blocks| && x.epoch == e && x.version == db.blocks[s - 1].last
    requires KeysBelow(a, e, db.blocks[s - m].last) && KeysAbove(b, e, db.blocks[s - 1].last)
    ensures KeysBelow(a, e, db.blocks[s - 1].last)
    ensures m > 1 ==> KeysAbove([x] + b, e, db.blocks[s - 2].last)
  {
    if m > 1 { assert Older(db, s - 2, s - 1) && Older(db, s - m, s - 1); }
  }

  lemma Regroup(a: seq<Entry>, run: seq<Entry>, x: Entry, b: seq<Entry>)
    ensures a + run + ([x] + b) == a + (run + [x]) + b
  {
  }

  /** Recording blocks newest first puts their run, in key order, between what lies below and above. */
  lemma {:induction false} InsertRun(db: Db, price: Pricing, a: seq<Entry>, b: seq<Entry>, e: nat, s: nat, m: nat)
    requires DbOk(db) && m <= s <= |db.blocks|
    requires m > 0 ==> KeysBelow(a, e, db.blocks[s - m].last) && KeysAbove(b, e, db.blocks[s - 1].last)
    ensures InsertAll(price, a + b, e, Descend(db, s, m)) == a + RunOf(db, price, e, s - m, s) + b
    decreases m
  {
    if m == 0 {
      assert a + [] + b == a + b;
    } else {
      var x := EntryOf(db, price, e, s - 1);
      KeysStep(db, a, b, x, e, s, m);
      InsertFirst(db, price, a, b, e, s, m);
      InsertRun(db, price, a, [x] + b, e, s - 1, m - 1);
      Regroup(a, RunOf(db, price, e, s - m, s - 1), x, b);
    }
  }

  lemma {:induction false} UpToSplit(a: seq<Entry>, b: seq<Entry>, e: nat, v: nat)
    requires KeysBelow(a, e, v + 1) && KeysAbove(b, e, v)
    ensures UpTo(a + b, e, v) == a
  {
    if a == [] {
      assert a + b == b;
      if b != [] {
        assert b[1..] == [] + b[1..];
        UpToSplit([], b[1..], e, v);
      }
    } else {
      assert (a + b)[0] == a[0] && (a + b)[1..] == a[1..] + b;
      UpToSplit(a[1..], b, e, v);
    }
  }

  lemma {:induction false} PricesLength(price: Pricing, blocks: seq<Blk>)
    ensures |PricesOf(price, blocks)| == |blocks|
  {
    if blocks != [] { PricesLength(price, blocks[1..]); }
  }

  lemma {:induction false} PricesOfAt(price: Pricing, blocks: seq<Blk>, t: nat)
    requires t < |blocks|
    ensures |PricesOf(price, blocks)| == |blocks| && PricesOf(price, blocks)[t] == price(blocks[t])
  {
    PricesLength(price, blocks);
    if t > 0 { PricesOfAt(price, blocks[1..], t - 1); }
  }

  lemma {:induction false} DescendAt(db: Db, s: nat, m: nat, i: nat)
    requires i < m <= s <= |db.blocks|
    ensures Descend(db, s, m)[i] == db.blocks[s - 1 - i]
    decreases m
  {
    if i > 0 { DescendAt(db, s - 1, m - 1, i - 1); }
  }

  lemma {:induction false} NewestLength(p: seq<Entry>, k: nat)
    ensures |Newest(p, k)| == Min(k, |p|)
    decreases k
  {
    if p != [] && k > 0 { NewestLength(p[..|p| - 1], k - 1); }
  }

  lemma {:induction false} NewestAt(p: seq<Entry>, k: nat, t: nat)
    requires t < |Newest(p, k)| == Min(k, |p|)
    ensures Newest(p, k)[t] == p[|p| - 1 - t].price
    decreases k
  {
    if t > 0 {
      var rest := p[..|p| - 1];
      NewestLength(rest, k - 1);
      NewestAt(rest, k - 1, t - 1);
      assert rest[|rest| - t] == p[|p| - 1 - t];
    }
  }

  /** The `k` newest prices of a run are those of the blocks down from its end. */
  lemma NewestOfRun(db: Db, price: Pricing, e: nat, lo: nat, hi: nat, k: nat, run: seq<Entry>, t: nat)
    requires lo <= hi <= |db.blocks| && run == RunOf(db, price, e, lo, hi)
    ensures |Newest(run, k)| == Min(k, hi - lo)
    ensures t < Min(k, hi - lo) ==> Newest(run, k)[t] == price(db.blocks[hi - 1 - t])
  {
    NewestLength(run, k);
    if t < Min(k, hi - lo) {
      NewestAt(run, k, t);
      assert run[hi - lo - 1 - t] == EntryOf(db, price, e, hi - 1 - t);
    }
  }

  lemma DescentPriceAt(db: Db, price: Pricing, s: nat, m: nat, blocks: seq<Blk>, t: nat)
    requires t < m <= s <= |db.blocks| && blocks == Descend(db, s, m)
    ensures |PricesOf(price, blocks)| == m && PricesOf(price, blocks)[t] == price(db.blocks[s - 1 - t])
  {
    PricesOfAt(price, blocks, t);
    DescendAt(db, s, m, t);
  }

  lemma RunOrder(db: Db, price: Pricing, e: nat, lo: nat, hi: nat)
    requires DbOk(db) && lo < hi <= |db.blocks|
    ensures KeysBelow(RunOf(db, price, e, lo, hi), e, db.blocks[hi - 1].last + 1)
    ensures forall i: nat :: hi <= i < |db.blocks| ==> KeysBelow(RunOf(db, price, e, lo, hi), e, db.blocks[i].last)
    ensures forall i: nat :: i < lo ==> KeysAbove(RunOf(db, price, e, lo, hi), e, db.blocks[i].last)
  {
    var run := RunOf(db, price, e, lo, hi);
    forall j | 0 <= j < |run| ensures run[j].epoch == e && run[j].version <= db.blocks[hi - 1].last {
      if lo + j < hi - 1 { assert Older(db, lo + j, hi - 1); }
    }
    forall i: nat, j | hi <= i < |db.blocks| && 0 <= j < |run| ensures run[j].version < db.blocks[i].last {
      assert Older(db, lo + j, i);
    }
    forall i: nat, j | i < lo && 0 <= j < |run| ensures run[j].version > db.blocks[i].last {
      assert Older(db, i, lo + j);
    }
  }

  lemma RunJoin(db: Db, price: Pricing, e: nat, lo: nat, mid: nat, hi: nat)
    requires lo <= mid <= hi <= |db.blocks|
    ensures RunOf(db, price, e, lo, mid) + RunOf(db, price, e, mid, hi) == RunOf(db, price, e, lo, hi)
    ensures RunOf(db, price, e, lo, hi)[mid - lo..] == RunOf(db, price, e, mid, hi)
  {
  }

  // ---------------------------------------------------------------------------------------------
  // One recomputation, by where the walk starts relative to the cached run
  // ---------------------------------------------------------------------------------------------

  function Minus(a: nat, b: nat): nat {
    if a < b then 0 else a - b
  }

  /** The cached entries are blocks `lo` to `hi`, as many as a walk from `hi` would visit. */
  ghost predicate IsRun(db: Db, price: Pricing, h: nat, e: nat, p: seq<Entry>, lo: nat, hi: nat) {
    && lo < hi <= |db.blocks|
    && p == RunOf(db, price, e, lo, hi)
    && In(db, e, hi - 1)
    && lo == Max(Low(db, e, hi), Minus(hi, h))
  }

  /** The walk, what is recorded, and what is merged, with one fixed pricing. */
  datatype Outcome = Outcome(walked: Walked, recorded: seq<Entry>, merged: seq<nat>)

  ghost function Follow(price: Pricing, h: nat, e: nat, p: seq<Entry>, w: Walked): Outcome
    requires |w.blocks| <= h
  {
    var r := InsertAll(price, p, e, w.blocks);
    Outcome(w, r, Merge(price, h, r, e, w))
  }

  ghost function Redo(db: Db, price: Pricing, h: nat, e: nat, p: seq<Entry>, v: nat): Outcome {
    Follow(price, h, e, p, Walk(db, p, e, v, h))
  }

  /** What a walk without any cache gives from index `s`. */
  ghost function Plain(db: Db, price: Pricing, h: nat, e: nat, s: nat): seq<nat>
    requires s <= |db.blocks|
  {
    PricesOf(price, Descend(db, s, Min(h, s - Low(db, e, s))))
  }

  lemma PlainIsUncached(db: Db, price: Pricing, h: nat, e: nat, s: nat)
    requires DbOk(db) && 0 < s <= |db.blocks|
    ensures PricesOf(price, Walk(db, [], e, db.blocks[s - 1].last, h).blocks) == Plain(db, price, h, e, s)
  {
    EmptyHasRun(db, e);
    WalkOutside(db, [], e, 0, 0, s, h);
  }

  lemma RunIsIn(db: Db, price: Pricing, h: nat, e: nat, p: seq<Entry>, lo: nat, hi: nat)
    requires IsRun(db, price, h, e, p, lo, hi)
    ensures forall i :: lo <= i < hi ==> In(db, e, i)
    ensures Low(db, e, hi) == Low(db, e, lo) <= lo
  {
    LowIsIn(db, e, hi);
    LowJoin(db, e, lo, hi);
  }

  lemma AppendNothing<T>(a: seq<T>)
    ensures a + [] == a && [] + a == a
  {
  }

  /** No cached entry is met: only fresh prices. */
  lemma MergeFresh(price: Pricing, h: nat, entries: seq<Entry>, e: nat, w: Walked)
    requires |w.blocks| <= h && !w.hit
    ensures Merge(price, h, entries, e, w) == PricesOf(price, w.blocks)
  {
    AppendNothing(PricesOf(price, w.blocks));
  }

  lemma RecordBelow(db: Db, price: Pricing, e: nat, p: seq<Entry>, lo: nat, hi: nat, s: nat, m: nat)
    requires DbOk(db) && m <= s <= |db.blocks|
    requires p == [] || (s <= lo < hi <= |db.blocks| && p == RunOf(db, price, e, lo, hi))
    ensures InsertAll(price, p, e, Descend(db, s, m)) == RunOf(db, price, e, s - m, s) + p
  {
    if p != [] { RunOrder(db, price, e, lo, hi); }
    InsertRun(db, price, [], p, e, s, m);
    AppendNothing(p);
    AppendNothing(RunOf(db, price, e, s - m, s));
  }

  lemma RecordAbove(db: Db, price: Pricing, e: nat, p: seq<Entry>, lo: nat, hi: nat, s: nat, m: nat)
    requires DbOk(db) && lo < hi && hi + m <= s <= |db.blocks| && p == RunOf(db, price, e, lo, hi)
    ensures InsertAll(price, p, e, Descend(db, s, m)) == p + RunOf(db, price, e, s - m, s)
  {
    RunOrder(db, price, e, lo, hi);
    InsertRun(db, price, p, [], e, s, m);
    AppendNothing(p);
    AppendNothing(p + RunOf(db, price, e, s - m, s));
  }

  lemma UpToRun(db: Db, price: Pricing, e: nat, lo: nat, hi: nat, top: nat)
    requires DbOk(db) && lo < hi <= top <= |db.blocks|
    ensures UpTo(RunOf(db, price, e, lo, top), e, db.blocks[hi - 1].last) == RunOf(db, price, e, lo, hi)
  {
    RunJoin(db, price, e, lo, hi, top);
    RunOrder(db, price, e, lo, hi);
    if hi < top { RunOrder(db, price, e, hi, top); }
    UpToSplit(RunOf(db, price, e, lo, hi), RunOf(db, price, e, hi, top), e, db.blocks[hi - 1].last);
  }

  lemma MergeHit(price: Pricing, h: nat, e: nat, entries: seq<Entry>, w: Walked, met: seq<Entry>, tail: seq<nat>)
    requires w.hit && |w.blocks| <= h
    requires UpTo(entries, e, w.lookup) == met && Newest(met, h - |w.blocks|) == tail
    ensures Merge(price, h, entries, e, w) == PricesOf(price, w.blocks) + tail
  {
  }

  lemma MetAt(db: Db, price: Pricing, e: nat, lo: nat, hi: nat, s: nat, k: nat, blocks: seq<Blk>, run: seq<Entry>,
              head: seq<nat>, rest: seq<nat>, t: nat)
    requires lo <= hi <= s <= |db.blocks| && blocks == Descend(db, s, s - hi) && run == RunOf(db, price, e, lo, hi)
    requires head == PricesOf(price, blocks) && rest == Newest(run, k)
    ensures |head + rest| == s - hi + Min(k, hi - lo)
    ensures t < |head + rest| ==> (head + rest)[t] == price(db.blocks[s - 1 - t])
  {
    PricesLength(price, blocks);
    NewestOfRun(db, price, e, lo, hi, k, run, if t < s - hi then 0 else t - (s - hi));
    if t < s - hi { DescentPriceAt(db, price, s, s - hi, blocks, t); }
  }

  lemma MetPrices(db: Db, price: Pricing, e: nat, lo: nat, hi: nat, s: nat, k: nat, blocks: seq<Blk>, run: seq<Entry>,
                  head: seq<nat>, rest: seq<nat>, all: seq<Blk>)
    requires lo <= hi <= s <= |db.blocks| && blocks == Descend(db, s, s - hi) && run == RunOf(db, price, e, lo, hi)
    requires head == PricesOf(price, blocks) && rest == Newest(run, k)
    requires all == Descend(db, s, s - hi + Min(k, hi - lo))
    ensures head + rest == PricesOf(price, all)
  {
    PricesLength(price, all);
    MetAt(db, price, e, lo, hi, s, k, blocks, run, head, rest, 0);
    forall t | 0 <= t < |all| ensures (head + rest)[t] == PricesOf(price, all)[t] {
      MetAt(db, price, e, lo, hi, s, k, blocks, run, head, rest, t);
      DescentPriceAt(db, price, s, |all|, all, t);
    }
  }

  lemma MergeJoins(db: Db, price: Pricing, h: nat, e: nat, entries: seq<Entry>, lo: nat, hi: nat, s: nat, w: Walked,
                   k: nat, run: seq<Entry>, head: seq<nat>, rest: seq<nat>, all: seq<Blk>)
    requires lo <= hi <= s <= |db.blocks| && w.hit && w.blocks == Descend(db, s, s - hi) && |w.blocks| + k == h
    requires UpTo(entries, e, w.lookup) == run == RunOf(db, price, e, lo, hi)
    requires head == PricesOf(price, w.blocks) && rest == Newest(run, k)
    requires all == Descend(db, s, s - hi + Min(k, hi - lo))
    ensures Merge(price, h, entries, e, w) == PricesOf(price, all)
  {
    MetPrices(db, price, e, lo, hi, s, k, w.blocks, run, head, rest, all);
    MergeHit(price, h, e, entries, w, run, rest);
  }

  /** The walk met the top of the run `lo..hi`: fresh prices, then the run's. */
  lemma MergeMet(db: Db, price: Pricing, h: nat, e: nat, entries: seq<Entry>, lo: nat, hi: nat, s: nat, w: Walked,
                 all: seq<Blk>)
    requires lo < hi <= s <= |db.blocks| && s - hi <= h
    requires w.hit && w.blocks == Descend(db, s, s - hi)
    requires UpTo(entries, e, w.lookup) == RunOf(db, price, e, lo, hi)
    requires all == Descend(db, s, s - hi + Min(h - (s - hi), hi - lo))
    ensures Merge(price, h, entries, e, w) == PricesOf(price, all)
  {
    var k, run := h - |w.blocks|, RunOf(db, price, e, lo, hi);
    MergeJoins(db, price, h, e, entries, lo, hi, s, w, k, run, PricesOf(price, w.blocks), Newest(run, k), all);
  }

  lemma EvictRun(db: Db, price: Pricing, h: nat, e: nat, a: seq<Entry>, lo: nat, hi: nat)
    requires lo <= hi <= |db.blocks|
    ensures |a| + hi - lo > h && hi - lo <= h ==>
              Evict(a + RunOf(db, price, e, lo, hi), h) == a[|a| + hi - lo - h..] + RunOf(db, price, e, lo, hi)
    ensures Evict(RunOf(db, price, e, lo, hi), h) == RunOf(db, price, e, Max(lo, Minus(hi, h)), hi)
  {
    if hi - lo > h { RunJoin(db, price, e, lo, hi - h, hi); }
  }

  lemma EmptyOutcome(db: Db, price: Pricing, h: nat, e: nat, s: nat, m: nat, w: Walked)
    requires DbOk(db) && m <= s <= |db.blocks| && m <= h && w.blocks == Descend(db, s, m) && !w.hit
    ensures Follow(price, h, e, [], w)
            == Outcome(w, RunOf(db, price, e, s - m, s), PricesOf(price, Descend(db, s, m)))
    ensures Evict(RunOf(db, price, e, s - m, s), h) == RunOf(db, price, e, s - m, s)
  {
    var run := RunOf(db, price, e, s - m, s);
    RecordBelow(db, price, e, [], 0, 0, s, m);
    AppendNothing(run);
    MergeFresh(price, h, run, e, w);
    FollowIs(price, h, e, [], w, run, PricesOf(price, Descend(db, s, m)));
  }

  /** A walk of `m` blocks leaves a run that ends where it started. */
  lemma RunFromTop(db: Db, price: Pricing, h: nat, e: nat, s: nat, m: nat)
    requires 0 < s <= |db.blocks| && In(db, e, s - 1) && h > 0 && m == Min(h, s - Low(db, e, s))
    ensures 0 < m <= s && s - m == Max(Low(db, e, s), Minus(s, h))
    ensures IsRun(db, price, h, e, RunOf(db, price, e, s - m, s), s - m, s)
  {
  }

  lemma RedoEmpty(db: Db, price: Pricing, h: nat, e: nat, s: nat)
    requires DbOk(db) && 0 < s <= |db.blocks| && In(db, e, s - 1) && h > 0
    ensures var o := Redo(db, price, h, e, [], db.blocks[s - 1].last);
            && o.merged == Plain(db, price, h, e, s)
            && IsRun(db, price, h, e, Evict(o.recorded, h), Max(Low(db, e, s), Minus(s, h)), s)
            && o.walked.blocks != []
  {
    var m := Min(h, s - Low(db, e, s));
    EmptyHasRun(db, e);
    WalkOutside(db, [], e, 0, 0, s, h);
    RunFromTop(db, price, h, e, s, m);
    EmptyOutcome(db, price, h, e, s, m, Walk(db, [], e, db.blocks[s - 1].last, h));
  }

  lemma FollowBelow(db: Db, price: Pricing, h: nat, e: nat, p: seq<Entry>, lo: nat, hi: nat, s: nat, m: nat, w: Walked)
    requires DbOk(db) && s <= lo < hi <= |db.blocks| && p == RunOf(db, price, e, lo, hi) && hi - lo == h
    requires m <= s && m <= h && w.blocks == Descend(db, s, m) && !w.hit
    ensures Evict(Follow(price, h, e, p, w).recorded, h) == p
    ensures Follow(price, h, e, p, w).merged == PricesOf(price, Descend(db, s, m))
  {
    RecordBelow(db, price, e, p, lo, hi, s, m);
    var run := RunOf(db, price, e, s - m, s);
    assert (run + p)[m..] == p;
    MergeFresh(price, h, run + p, e, w);
  }

  /** A run that does not begin where the epoch does is full. */
  lemma RunIsFull(db: Db, price: Pricing, h: nat, e: nat, p: seq<Entry>, lo: nat, hi: nat, s: nat)
    requires DbOk(db) && IsRun(db, price, h, e, p, lo, hi) && 0 < s <= lo && In(db, e, s - 1)
    ensures hi - lo == h
  {
    Connected(db, e, s - 1, hi - 1);
    LowJoin(db, e, s - 1, hi);
  }

  lemma RedoBelow(db: Db, price: Pricing, h: nat, e: nat, p: seq<Entry>, lo: nat, hi: nat, s: nat)
    requires DbOk(db) && IsRun(db, price, h, e, p, lo, hi) && 0 < s <= lo && In(db, e, s - 1) && h > 0
    ensures var o := Redo(db, price, h, e, p, db.blocks[s - 1].last);
            && o.merged == Plain(db, price, h, e, s)
            && Evict(o.recorded, h) == p
            && o.walked.blocks != []
  {
    RunHasRun(db, price, e, lo, hi);
    WalkOutside(db, p, e, lo, hi, s, h);
    RunIsFull(db, price, h, e, p, lo, hi, s);
    FollowBelow(db, price, h, e, p, lo, hi, s, Min(h, s - Low(db, e, s)), Walk(db, p, e, db.blocks[s - 1].last, h));
  }

  lemma RedoInside(db: Db, price: Pricing, h: nat, e: nat, p: seq<Entry>, lo: nat, hi: nat, s: nat)
    requires DbOk(db) && IsRun(db, price, h, e, p, lo, hi) && lo < s <= hi && h > 0
    ensures var o := Redo(db, price, h, e, p, db.blocks[s - 1].last);
            && o.walked == Walked([], true, db.blocks[s - 1].last)
            && o.recorded == p && |p| <= h
            && o.merged == PricesOf(price, Descend(db, s, s - lo))
  {
    RunHasRun(db, price, e, lo, hi);
    assert CachedAt(db, p, e, s - 1);
    UpToRun(db, price, e, lo, s, hi);
    MergeMet(db, price, h, e, p, lo, s, s, Walked([], true, db.blocks[s - 1].last), Descend(db, s, s - lo));
  }

  lemma FollowIs(price: Pricing, h: nat, e: nat, p: seq<Entry>, w: Walked, r: seq<Entry>, merged: seq<nat>)
    requires |w.blocks| <= h
    requires InsertAll(price, p, e, w.blocks) == r && Merge(price, h, r, e, w) == merged
    ensures Follow(price, h, e, p, w) == Outcome(w, r, merged)
  {
  }

  /** The walk ran into the run: everything recorded is one run again. */
  lemma FollowMet(db: Db, price: Pricing, h: nat, e: nat, p: seq<Entry>, lo: nat, hi: nat, s: nat, w: Walked)
    requires DbOk(db) && lo < hi < s <= |db.blocks| && p == RunOf(db, price, e, lo, hi) && s - hi < h
    requires w == Walked(Descend(db, s, s - hi), true, db.blocks[hi - 1].last)
    ensures Follow(price, h, e, p, w)
            == Outcome(w, RunOf(db, price, e, lo, s), PricesOf(price, Descend(db, s, Min(h, s - lo))))
  {
    RecordMet(db, price, e, p, lo, hi, s);
    MergeRun(db, price, h, e, lo, hi, s, w);
    FollowIs(price, h, e, p, w, RunOf(db, price, e, lo, s), PricesOf(price, Descend(db, s, Min(h, s - lo))));
  }

  lemma RecordMet(db: Db, price: Pricing, e: nat, p: seq<Entry>, lo: nat, hi: nat, s: nat)
    requires DbOk(db) && lo < hi <= s <= |db.blocks| && p == RunOf(db, price, e, lo, hi)
    ensures InsertAll(price, p, e, Descend(db, s, s - hi)) == RunOf(db, price, e, lo, s)
  {
    RecordAbove(db, price, e, p, lo, hi, s, s - hi);
    RunJoin(db, price, e, lo, hi, s);
  }

  lemma MergeRun(db: Db, price: Pricing, h: nat, e: nat, lo: nat, hi: nat, s: nat, w: Walked)
    requires DbOk(db) && lo < hi <= s <= |db.blocks| && s - hi < h
    requires w == Walked(Descend(db, s, s - hi), true, db.blocks[hi - 1].last)
    ensures Merge(price, h, RunOf(db, price, e, lo, s), e, w) == PricesOf(price, Descend(db, s, Min(h, s - lo)))
  {
    UpToRun(db, price, e, lo, hi, s);
    assert s - hi + Min(h - (s - hi), hi - lo) == Min(h, s - lo);
    MergeMet(db, price, h, e, RunOf(db, price, e, lo, s), lo, hi, s, w, Descend(db, s, Min(h, s - lo)));
  }

  /** The walk took `h` blocks without reaching the run, which is then evicted. */
  lemma FollowMissed(db: Db, price: Pricing, h: nat, e: nat, p: seq<Entry>, lo: nat, hi: nat, s: nat, w: Walked)
    requires DbOk(db) && lo < hi && hi + h <= s <= |db.blocks| && p == RunOf(db, price, e, lo, hi)
    requires w.blocks == Descend(db, s, h) && !w.hit
    ensures Follow(price, h, e, p, w)
            == Outcome(w, p + RunOf(db, price, e, s - h, s), PricesOf(price, Descend(db, s, h)))
    ensures Evict(p + RunOf(db, price, e, s - h, s), h) == RunOf(db, price, e, s - h, s)
  {
    var r := p + RunOf(db, price, e, s - h, s);
    RecordAbove(db, price, e, p, lo, hi, s, h);
    assert r[|p|..] == RunOf(db, price, e, s - h, s);
    MergeFresh(price, h, r, e, w);
    FollowIs(price, h, e, p, w, r, PricesOf(price, Descend(db, s, h)));
  }

  /** The run below, as far down as a walk from `s` needs it. */
  lemma RunBelow(db: Db, price: Pricing, h: nat, e: nat, p: seq<Entry>, lo: nat, hi: nat, s: nat)
    requires DbOk(db) && IsRun(db, price, h, e, p, lo, hi) && hi < s && In(db, e, s - 1)
    ensures forall i :: lo <= i < s ==> In(db, e, i)
    ensures Min(h, s - lo) == Min(h, s - Low(db, e, s))
    ensures Max(lo, Minus(s, h)) == Max(Low(db, e, s), Minus(s, h))
  {
    RunIsIn(db, price, h, e, p, lo, hi);
    Connected(db, e, hi - 1, s - 1);
    LowJoin(db, e, hi, s);
  }

  lemma RedoAbove(db: Db, price: Pricing, h: nat, e: nat, p: seq<Entry>, lo: nat, hi: nat, s: nat)
    requires DbOk(db) && IsRun(db, price, h, e, p, lo, hi) && hi < s <= |db.blocks| && In(db, e, s - 1) && h > 0
    ensures var o := Redo(db, price, h, e, p, db.blocks[s - 1].last);
            && o.merged == Plain(db, price, h, e, s)
            && IsRun(db, price, h, e, Evict(o.recorded, h), Max(Low(db, e, s), Minus(s, h)), s)
            && o.walked.blocks != []
  {
    RunBelow(db, price, h, e, p, lo, hi, s);
    RunHasRun(db, price, e, lo, hi);
    WalkAbove(db, p, e, lo, hi, s, h);
    AboveOutcome(db, price, h, e, p, lo, hi, s, Walk(db, p, e, db.blocks[s - 1].last, h));
  }

  lemma AboveOutcome(db: Db, price: Pricing, h: nat, e: nat, p: seq<Entry>, lo: nat, hi: nat, s: nat, w: Walked)
    requires DbOk(db) && IsRun(db, price, h, e, p, lo, hi) && hi < s <= |db.blocks| && In(db, e, s - 1) && h > 0
    requires w.blocks == Descend(db, s, Min(h, s - hi)) && (w.hit <==> s - hi < h)
    requires w.hit ==> w.lookup == db.blocks[hi - 1].last
    ensures var o := Follow(price, h, e, p, w);
            && o.merged == Plain(db, price, h, e, s)
            && IsRun(db, price, h, e, Evict(o.recorded, h), Max(Low(db, e, s), Minus(s, h)), s)
            && o.walked.blocks != []
  {
    RunBelow(db, price, h, e, p, lo, hi, s);
    if s - hi < h {
      FollowMet(db, price, h, e, p, lo, hi, s, w);
      EvictRun(db, price, h, e, [], lo, s);
    } else {
      FollowMissed(db, price, h, e, p, lo, hi, s, w);
    }
  }

  // ---------------------------------------------------------------------------------------------
  // From requests to walks
  // ---------------------------------------------------------------------------------------------

  /** The walk for a request starts below this index; 0 when the tip is not a readable block of the epoch. */
  function StartIndex(db: Db, e: nat, tip: nat): nat {
    if tip < db.floor then 0
    else
      match FindIndex(db.blocks, tip)
      case None => 0
      case Some(t) => if db.blocks[t].epoch != e then 0 else if t == 0 then 1 else t
  }

  lemma StartIs(db: Db, e: nat, tip: nat)
    requires DbOk(db)
    ensures var s := StartIndex(db, e, tip);
            && s <= |db.blocks|
            && (s > 0 ==>
                  && StartVersion(db, e, tip) == db.blocks[s - 1].last
                  && (db.blocks[s - 1].last < tip || tip == 0))
            && (s == 0 ==>
                  && StartVersion(db, e, tip) == tip
                  && (BlockAt(db, tip).None? || BlockAt(db, tip).value.epoch != e))
  {
    var s := StartIndex(db, e, tip);
    if s > 0 {
      var t := FindIndex(db.blocks, tip).value;
      if t > 0 { assert Link(db, t) && Sound(db, t); }
    }
  }

  lemma {:induction false} StepsDescend(db: Db, cached: seq<Entry>, e: nat, s: nat, k: nat)
    requires 0 < s <= |db.blocks|
    ensures var w := Steps(db, cached, e, s, k);
            |w.blocks| <= s && w.blocks == Descend(db, s, |w.blocks|)
    decreases k
  {
    if k > 0 && !CachedAt(db, cached, e, s - 1) && In(db, e, s - 1) {
      if s > 2 {
        StepsDescend(db, cached, e, s - 1, k - 1);
        DescendOne(db, s, 1 + |Steps(db, cached, e, s - 1, k - 1).blocks|);
      } else {
        DescendOne(db, s, 1);
      }
    }
  }

  lemma WalkDescends(db: Db, cached: seq<Entry>, e: nat, s: nat, k: nat)
    requires DbOk(db) && 0 < s <= |db.blocks|
    ensures var w := Walk(db, cached, e, db.blocks[s - 1].last, k);
            |w.blocks| <= s && w.blocks == Descend(db, s, |w.blocks|)
  {
    WalkIsSteps(db, cached, e, s, k);
    StepsDescend(db, cached, e, s, k);
  }

  ghost predicate AgreeOn(p: Pricing, q: Pricing, blocks: seq<Blk>) {
    forall i :: 0 <= i < |blocks| ==> p(blocks[i]) == q(blocks[i])
  }

  lemma {:induction false} Agreement(p: Pricing, q: Pricing, entries: seq<Entry>, e: nat, blocks: seq<Blk>)
    requires AgreeOn(p, q, blocks)
    ensures PricesOf(p, blocks) == PricesOf(q, blocks)
    ensures InsertAll(p, entries, e, blocks) == InsertAll(q, entries, e, blocks)
    decreases |blocks|
  {
    if blocks != [] {
      assert p(blocks[0]) == q(blocks[0]);
      assert AgreeOn(p, q, blocks[1..]);
      Agreement(p, q, Insert(entries, Entry(e, blocks[0].last, p(blocks[0]))), e, blocks[1..]);
    }
  }

  /** Two pricings agree on every block that is complete at a version. */
  ghost predicate AgreeUpTo(p: Pricing, q: Pricing, ver: nat) {
    forall b: Blk :: b.last <= ver ==> p(b) == q(b)
  }

  lemma PricesAreStable(env: Env, ver: nat)
    ensures AgreeUpTo(PricesAt(env, ver), FinalPrices(env), ver)
  {
    forall b: Blk | b.last <= ver ensures PricesAt(env, ver)(b) == FinalPrices(env)(b) {
      PriceIsStable(env, b, ver);
    }
  }

  lemma {:induction false} CompleteBlocksAgree(db: Db, p: Pricing, q: Pricing, s: nat, m: nat, ver: nat)
    requires DbOk(db) && m <= s <= |db.blocks| && (s > 0 ==> db.blocks[s - 1].last <= ver) && AgreeUpTo(p, q, ver)
    ensures AgreeOn(p, q, Descend(db, s, m))
    decreases m
  {
    if m > 0 {
      if s > 1 { assert Older(db, s - 2, s - 1); }
      CompleteBlocksAgree(db, p, q, s - 1, m - 1, ver);
      ConsAgree(p, q, db.blocks[s - 1], Descend(db, s - 1, m - 1));
    }
  }

  lemma ConsAgree(p: Pricing, q: Pricing, b: Blk, rest: seq<Blk>)
    requires p(b) == q(b) && AgreeOn(p, q, rest)
    ensures AgreeOn(p, q, [b] + rest)
  {
  }

  /** Prices are taken at the request's ledger version, which for complete blocks changes nothing. */
  lemma RequestIsRedo(env: Env, c: Cache, req: Request)
    requires DbOk(env.db) && StartIndex(env.db, req.epoch, req.version) > 0
    ensures var s := StartIndex(env.db, req.epoch, req.version);
            && s <= |env.db.blocks|
            && Outcome(WalkFor(env, c, req), Refreshed(env, c, req), MergedPrices(env, c, req))
               == Redo(env.db, FinalPrices(env), env.cfg.aggressiveBlockHistory, req.epoch,
                       Carried(c, req.epoch), env.db.blocks[s - 1].last)
  {
    StartIs(env.db, req.epoch, req.version);
    var s := StartIndex(env.db, req.epoch, req.version);
    var w := WalkFor(env, c, req);
    WalkDescends(env.db, Carried(c, req.epoch), req.epoch, s, env.cfg.aggressiveBlockHistory);
    PricesAreStable(env, req.version);
    CompleteBlocksAgree(env.db, PricesAt(env, req.version), FinalPrices(env), s, |w.blocks|, req.version);
    Agreement(PricesAt(env, req.version), FinalPrices(env), Carried(c, req.epoch), req.epoch, w.blocks);
  }

  lemma SimpleIsPlain(env: Env, req: Request)
    requires DbOk(env.db) && StartIndex(env.db, req.epoch, req.version) > 0
    ensures var s := StartIndex(env.db, req.epoch, req.version);
            && s <= |env.db.blocks|
            && SimplePrices(env, req) == Plain(env.db, FinalPrices(env), env.cfg.aggressiveBlockHistory, req.epoch, s)
  {
    StartIs(env.db, req.epoch, req.version);
    var s := StartIndex(env.db, req.epoch, req.version);
    var w := Walk(env.db, [], req.epoch, env.db.blocks[s - 1].last, env.cfg.aggressiveBlockHistory);
    WalkDescends(env.db, [], req.epoch, s, env.cfg.aggressiveBlockHistory);
    PricesAreStable(env, req.version);
    CompleteBlocksAgree(env.db, PricesAt(env, req.version), FinalPrices(env), s, |w.blocks|, req.version);
    Agreement(PricesAt(env, req.version), FinalPrices(env), [], req.epoch, w.blocks);
    PlainIsUncached(env.db, FinalPrices(env), env.cfg.aggressiveBlockHistory, req.epoch, s);
  }

  // ---------------------------------------------------------------------------------------------
  // The invariant, and when the merged prices are those of the plain walk
  // ---------------------------------------------------------------------------------------------

  ghost predicate Inv(env: Env, c: Cache) {
    c.prices != [] ==>
      && c.lastUpdatedEpoch.Some?
      && exists lo, hi :: IsRun(env.db, FinalPrices(env), env.cfg.aggressiveBlockHistory,
                                c.lastUpdatedEpoch.value, c.prices, lo, hi)
  }

  lemma CarriedRun(env: Env, c: Cache, e: nat)
    requires Inv(env, c)
    ensures Carried(c, e) == [] ||
            (c.lastUpdatedEpoch == Some(e) && Carried(c, e) == c.prices && env.cfg.aggressiveBlockHistory > 0 &&
             exists lo, hi :: IsRun(env.db, FinalPrices(env), env.cfg.aggressiveBlockHistory, e, c.prices, lo, hi))
  {
  }

  /** A readable block of the same epoch precedes the block that ends at `v`. */
  predicate HasOlder(db: Db, e: nat, v: nat) {
    match BlockAt(db, v)
    case None => false
    case Some(b) =>
      b.first > 0 && BlockAt(db, b.first - 1).Some? && BlockAt(db, b.first - 1).value.epoch == e
  }

  /**
   The tip went back: the walk starts inside the cached run, below its newest entry, while the run itself
   does not reach back to the beginning of what can be read of the epoch.
   */
  predicate CutShort(db: Db, p: seq<Entry>, e: nat, start: nat) {
    p != [] && Contains(p, e, start) && start != p[|p| - 1].version && HasOlder(db, e, p[0].version)
  }

  /** What the two lookups find. */
  lemma BlockAndOlder(db: Db, e: nat, i: nat)
    requires DbOk(db) && 0 < i && In(db, e, i)
    ensures BlockAt(db, db.blocks[i].last) == Some(db.blocks[i]) && db.blocks[i].first > 0
    ensures var v := db.blocks[i].first - 1;
            BlockAt(db, v) == if v < db.floor then None else Some(db.blocks[i - 1])
    ensures db.blocks[i].first - 1 == db.blocks[i - 1].last
  {
    assert Sound(db, i) && Link(db, i) && Sound(db, i - 1);
    BlockAtIs(db, i, db.blocks[i].last);
    BlockAtIs(db, i - 1, db.blocks[i - 1].last);
  }

  lemma OlderIsIn(db: Db, e: nat, i: nat)
    requires DbOk(db) && 0 < i && In(db, e, i)
    ensures HasOlder(db, e, db.blocks[i].last) <==> In(db, e, i - 1)
  {
    BlockAndOlder(db, e, i);
  }

  lemma LowReaches(db: Db, e: nat, i: nat)
    requires i > 0
    ensures In(db, e, i - 1) <==> Low(db, e, i) < i
  {
  }

  lemma HasOlderMeans(db: Db, e: nat, i: nat)
    requires DbOk(db) && In(db, e, i)
    ensures HasOlder(db, e, db.blocks[i].last) <==> Low(db, e, i) < i
  {
    if i == 0 {
      BlockAtIs(db, 0, 0);
    } else {
      OlderIsIn(db, e, i);
      LowReaches(db, e, i);
    }
  }

  lemma CutShortMeans(db: Db, price: Pricing, h: nat, e: nat, p: seq<Entry>, lo: nat, hi: nat, s: nat)
    requires DbOk(db) && IsRun(db, price, h, e, p, lo, hi) && 0 < s <= |db.blocks|
    ensures CutShort(db, p, e, db.blocks[s - 1].last) <==> lo < s < hi && Low(db, e, lo) < lo
  {
    RunIsIn(db, price, h, e, p, lo, hi);
    RunHasRun(db, price, e, lo, hi);
    HasOlderMeans(db, e, lo);
    assert CachedAt(db, p, e, s - 1) <==> lo <= s - 1 < hi;
    assert p[0] == EntryOf(db, price, e, lo) && p[|p| - 1] == EntryOf(db, price, e, hi - 1);
    if s < hi { assert Older(db, s - 1, hi - 1); }
    if hi < s { assert Older(db, hi - 1, s - 1); }
  }

  /** Starting inside the run gives the plain walk exactly when the run is not cut short. */
  lemma InsideIsPlain(db: Db, price: Pricing, h: nat, e: nat, p: seq<Entry>, lo: nat, hi: nat, s: nat)
    requires DbOk(db) && IsRun(db, price, h, e, p, lo, hi) && lo < s <= hi
    ensures PricesOf(price, Descend(db, s, s - lo)) == Plain(db, price, h, e, s)
            <==> !(s < hi && Low(db, e, lo) < lo)
  {
    RunIsIn(db, price, h, e, p, lo, hi);
    LowJoin(db, e, lo, s);
    PricesLength(price, Descend(db, s, s - lo));
    PricesLength(price, Descend(db, s, Min(h, s - Low(db, e, s))));
  }
}
