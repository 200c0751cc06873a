/**
 The gas price cache under any pruning: which blocks a request uses when the readable part of the database has shrunk
 arbitrarily since their prices were cached.

 Pruning past the newest cached block leaves a gap between the cached blocks and those recorded later. The blocks used
 are still those of a plain walk, over the database as it was at some floor, exactly when the entries used have no gap.
 */
module GasGaps {
  import opened Wrappers
  import opened GasPrices
  import opened GasEstimator
  import opened GasCache
  import opened GasRuns
  import opened GasPruning

  // ---------------------------------------------------------------------------------------------
  // What is cached, by block index
  // ---------------------------------------------------------------------------------------------

  predicate UpAt(ix: seq<nat>, i: nat, j: nat)
    requires i < |ix| && j < |ix|
  {
    ix[i] < ix[j]
  }

  ghost predicate Up(ix: seq<nat>) {
    forall i: nat, j: nat {:trigger UpAt(ix, i, j)} :: i < j < |ix| ==> UpAt(ix, i, j)
  }

  /** The entry is that of block `i`. */
  predicate KeyOf(db: Db, e: nat, x: Entry, i: nat) {
    i < |db.blocks| && db.blocks[i].epoch == e && x.epoch == e && x.version == db.blocks[i].last
  }

  /** The entries are those of the blocks `ix`, in order. */
  ghost predicate Keyed(db: Db, e: nat, p: seq<Entry>, ix: seq<nat>) {
    && |p| == |ix| && Up(ix)
    && forall j {:trigger KeyOf(db, e, p[j], ix[j])} :: 0 <= j < |ix| ==> KeyOf(db, e, p[j], ix[j])
  }

  /** The price the block had at some floor, no higher than now, at which the walk could still reach it. */
  ghost predicate Aged(env: Env, b: Blk, price: nat) {
    exists f: nat :: f <= env.db.floor && f <= b.last && price == FinalPrices(Pruned(env, f))(b)
  }

  ghost predicate AgedAt(env: Env, x: Entry, i: nat) {
    i < |env.db.blocks| && Aged(env, env.db.blocks[i], x.price)
  }

  ghost predicate AllAged(env: Env, p: seq<Entry>, ix: seq<nat>)
    requires |p| == |ix|
  {
    forall j {:trigger AgedAt(env, p[j], ix[j])} :: 0 <= j < |ix| ==> AgedAt(env, p[j], ix[j])
  }

  /** The block just below `i` is not to be had: there is none, or it is pruned, or of another epoch. */
  predicate Bottom(db: Db, e: nat, i: nat) {
    i == 0 || !In(db, e, i - 1)
  }

  predicate Adjacent(ix: seq<nat>, j: nat)
    requires 0 < j < |ix|
  {
    ix[j] == ix[j - 1] + 1
  }

  /** Gaps lie in what is pruned, and so does everything below, unless the cache is full. */
  ghost predicate Settled(db: Db, e: nat, h: nat, ix: seq<nat>) {
    && |ix| <= h
    && (forall j: nat {:trigger Adjacent(ix, j)} :: 0 < j < |ix| ==> Adjacent(ix, j) || Bottom(db, e, ix[j]))
    && (0 < |ix| < h ==> Bottom(db, e, ix[0]))
  }

  ghost predicate Known(env: Env, e: nat, p: seq<Entry>, ix: seq<nat>) {
    Keyed(env.db, e, p, ix) && AllAged(env, p, ix) && Settled(env.db, e, env.cfg.aggressiveBlockHistory, ix)
  }

  lemma KeyedAt(db: Db, e: nat, p: seq<Entry>, ix: seq<nat>, i: nat)
    requires DbOk(db) && Keyed(db, e, p, ix) && i < |db.blocks|
    ensures CachedAt(db, p, e, i) <==> i in ix
  {
    if i in ix {
      var j :| 0 <= j < |ix| && ix[j] == i;
      assert KeyOf(db, e, p[j], ix[j]);
    }
    forall j | 0 <= j < |p| && p[j].version == db.blocks[i].last ensures ix[j] == i {
      assert KeyOf(db, e, p[j], ix[j]);
      assert ix[j] == i || (if i < ix[j] then Older(db, i, ix[j]) else Older(db, ix[j], i));
    }
  }

  // ---------------------------------------------------------------------------------------------
  // The walk
  // ---------------------------------------------------------------------------------------------

  ghost predicate AllIn(db: Db, e: nat, lo: nat, hi: nat) {
    forall i: nat {:trigger In(db, e, i)} :: lo <= i < hi ==> In(db, e, i)
  }

  ghost predicate NoneOf(ix: seq<nat>, lo: nat, hi: nat) {
    forall j {:trigger ix[j]} :: 0 <= j < |ix| ==> !(lo <= ix[j] < hi)
  }

  /** The walk from `s` takes the `m` blocks below it and then meets a cached one, or has to stop. */
  ghost predicate Goes(db: Db, ix: seq<nat>, e: nat, s: nat, k: nat, m: nat, hit: bool) {
    && m <= k && m <= s
    && AllIn(db, e, s - m, s) && NoneOf(ix, s - m, s)
    && (if hit then m < k && m < s && s - m - 1 in ix
        else m == k || (Bottom(db, e, s - m) && (m == s || s - m - 1 !in ix)))
  }

  lemma GoesOneMore(db: Db, ix: seq<nat>, e: nat, s: nat, k: nat, m: nat, hit: bool)
    requires s > 0 && In(db, e, s - 1) && s - 1 !in ix && Goes(db, ix, e, s - 1, k, m, hit)
    ensures Goes(db, ix, e, s, k + 1, m + 1, hit)
  {
  }

  lemma {:induction false} StepsGo(db: Db, p: seq<Entry>, ix: seq<nat>, e: nat, s: nat, k: nat)
    requires DbOk(db) && Keyed(db, e, p, ix) && 0 < s <= |db.blocks|
    ensures var w := Steps(db, p, e, s, k);
            && Goes(db, ix, e, s, k, |w.blocks|, w.hit)
            && (w.hit ==> w.lookup == db.blocks[s - |w.blocks| - 1].last)
    decreases k
  {
    KeyedAt(db, e, p, ix, s - 1);
    if k > 0 && s - 1 !in ix && In(db, e, s - 1) {
      if s > 2 {
        StepsGo(db, p, ix, e, s - 1, k - 1);
        var rest := Steps(db, p, e, s - 1, k - 1);
        GoesOneMore(db, ix, e, s, k - 1, |rest.blocks|, rest.hit);
      } else {
        FirstBlocks(db, p, ix, e, s, k);
      }
    }
  }

  lemma FirstBlocks(db: Db, p: seq<Entry>, ix: seq<nat>, e: nat, s: nat, k: nat)
    requires DbOk(db) && Keyed(db, e, p, ix) && 0 < s <= 2 && s <= |db.blocks| && In(db, e, s - 1) && s - 1 !in ix
    requires k > 0
    ensures Goes(db, ix, e, s, k, 1, false)
  {
    if s == 2 {
      assert Sound(db, 0) && Sound(db, 1);
      forall j | 0 <= j < |ix| ensures ix[j] != 0 { assert KeyOf(db, e, p[j], ix[j]); }
    }
  }

  lemma WalkGoes(db: Db, p: seq<Entry>, ix: seq<nat>, e: nat, s: nat, k: nat)
    requires DbOk(db) && Keyed(db, e, p, ix) && 0 < s <= |db.blocks|
    ensures var w := Walk(db, p, e, db.blocks[s - 1].last, k);
            && Goes(db, ix, e, s, k, |w.blocks|, w.hit) && w.blocks == Descend(db, s, |w.blocks|)
            && (w.hit ==> w.lookup == db.blocks[s - |w.blocks| - 1].last)
  {
    WalkIsSteps(db, p, e, s, k);
    StepsGo(db, p, ix, e, s, k);
    WalkDescends(db, p, e, s, k);
  }

  /** A block of the epoch above one that can be read can be read. */
  lemma InAbove(db: Db, e: nat, i: nat, k: nat)
    requires DbOk(db) && In(db, e, i) && i <= k < |db.blocks| && db.blocks[k].epoch == e
    ensures In(db, e, k)
  {
    if i < k { assert Older(db, i, k); }
  }

  lemma EpochBetween(db: Db, e: nat, i: nat, k: nat, j: nat)
    requires DbOk(db) && i <= k <= j < |db.blocks| && db.blocks[i].epoch == e == db.blocks[j].epoch
    ensures db.blocks[k].epoch == e
  {
    if i < k { assert Older(db, i, k); }
    if k < j { assert Older(db, k, j); }
  }

  /** A readable block that is not cached lies above everything cached, or below a full cache. */
  lemma WhereFresh(db: Db, e: nat, h: nat, p: seq<Entry>, ix: seq<nat>, i: nat)
    requires DbOk(db) && Keyed(db, e, p, ix) && Settled(db, e, h, ix) && In(db, e, i) && i !in ix
    ensures (forall j :: 0 <= j < |ix| ==> ix[j] < i) || (|ix| == h && forall j :: 0 <= j < |ix| ==> i < ix[j])
  {
    if j :| 0 <= j < |ix| && i < ix[j] {
      BelowAll(db, e, h, p, ix, i, j);
    }
  }

  lemma NotInGap(db: Db, e: nat, h: nat, p: seq<Entry>, ix: seq<nat>, i: nat, j: nat)
    requires DbOk(db) && Keyed(db, e, p, ix) && Settled(db, e, h, ix) && In(db, e, i) && j < |ix| && i < ix[j]
    ensures !Bottom(db, e, ix[j])
  {
    assert KeyOf(db, e, p[j], ix[j]);
    EpochBetween(db, e, i, ix[j] - 1, ix[j]);
    InAbove(db, e, i, ix[j] - 1);
  }

  lemma {:induction false} BelowAll(db: Db, e: nat, h: nat, p: seq<Entry>, ix: seq<nat>, i: nat, j: nat)
    requires DbOk(db) && Keyed(db, e, p, ix) && Settled(db, e, h, ix) && In(db, e, i) && i !in ix
    requires j < |ix| && i < ix[j]
    ensures |ix| == h && forall j :: 0 <= j < |ix| ==> i < ix[j]
    decreases j
  {
    NotInGap(db, e, h, p, ix, i, j);
    if j > 0 {
      assert Adjacent(ix, j) && ix[j - 1] in ix;
      BelowAll(db, e, h, p, ix, i, j - 1);
    } else {
      forall j' | 0 < j' < |ix| ensures i < ix[j'] { assert UpAt(ix, 0, j'); }
    }
  }

  // ---------------------------------------------------------------------------------------------
  // Which blocks a request uses
  // ---------------------------------------------------------------------------------------------

  /** The blocks of the last `k` entries, newest first. */
  function NewestBlocks(db: Db, entries: seq<Entry>, k: nat): seq<Blk>
    decreases |entries|
  {
    if entries == [] || k == 0 then []
    else
      (match FindIndex(db.blocks, entries[|entries| - 1].version)
       case None => []
       case Some(i) => [db.blocks[i]])
      + NewestBlocks(db, entries[..|entries| - 1], k - 1)
  }

  /** The blocks whose prices a request merges: those it walks, then those of the entries from where it met them. */
  ghost function BlocksUsed(env: Env, c: Cache, req: Request): seq<Blk> {
    UsedBy(env.db, env.cfg.aggressiveBlockHistory, req.epoch, Carried(c, req.epoch), WalkFor(env, c, req))
  }

  function UsedBy(db: Db, h: nat, e: nat, p: seq<Entry>, w: Walked): seq<Blk>
    requires |w.blocks| <= h
  {
    w.blocks + if w.hit then NewestBlocks(db, UpTo(p, e, w.lookup), h - |w.blocks|) else []
  }

  /** The block of `y` begins where the block of `x` ends. */
  predicate Adjoins(db: Db, x: Entry, y: Entry) {
    match FindIndex(db.blocks, y.version)
    case None => false
    case Some(i) => db.blocks[i].first == x.version + 1
  }

  /** No block is missing between the last `k` entries. */
  predicate NoGap(db: Db, entries: seq<Entry>, k: nat) {
    forall j: nat {:trigger AdjoinsAt(db, entries, j)} ::
      0 < j < |entries| && |entries| - j < k ==> AdjoinsAt(db, entries, j)
  }

  predicate AdjoinsAt(db: Db, entries: seq<Entry>, j: nat)
    requires 0 < j < |entries|
  {
    Adjoins(db, entries[j - 1], entries[j])
  }

  /** Of the entries at or below the one the walk meets, as many as still count have no gap between them. */
  ghost predicate GapFree(env: Env, c: Cache, req: Request) {
    MeetsNoGap(env.db, env.cfg.aggressiveBlockHistory, req.epoch, Carried(c, req.epoch), WalkFor(env, c, req))
  }

  predicate MeetsNoGap(db: Db, h: nat, e: nat, p: seq<Entry>, w: Walked)
    requires |w.blocks| <= h
  {
    w.hit ==> NoGap(db, UpTo(p, e, w.lookup), h - |w.blocks|)
  }

  predicate Tight(ix: seq<nat>, k: nat) {
    forall j: nat {:trigger Adjacent(ix, j)} :: 0 < j < |ix| && |ix| - j < k ==> Adjacent(ix, j)
  }

  lemma BlockOfKey(db: Db, e: nat, x: Entry, i: nat)
    requires DbOk(db) && KeyOf(db, e, x, i)
    ensures FindIndex(db.blocks, x.version) == Some(i)
  {
    assert Sound(db, i) && db.blocks[..|db.blocks|] == db.blocks;
    FindIndexIs(db, |db.blocks|, i, x.version);
  }

  lemma AdjoinsIs(db: Db, e: nat, x: Entry, y: Entry, i: nat, j: nat)
    requires DbOk(db) && KeyOf(db, e, x, i) && KeyOf(db, e, y, j) && i < j
    ensures Adjoins(db, x, y) <==> j == i + 1
  {
    BlockOfKey(db, e, y, j);
    assert Link(db, j);
    if i < j - 1 { assert Older(db, i, j - 1) && Sound(db, j - 1); }
  }

  lemma NoGapIs(db: Db, e: nat, p: seq<Entry>, ix: seq<nat>, k: nat)
    requires DbOk(db) && Keyed(db, e, p, ix)
    ensures NoGap(db, p, k) <==> Tight(ix, k)
  {
    forall j: nat | 0 < j < |ix| ensures AdjoinsAt(db, p, j) <==> Adjacent(ix, j) {
      assert KeyOf(db, e, p[j - 1], ix[j - 1]) && KeyOf(db, e, p[j], ix[j]) && UpAt(ix, j - 1, j);
      AdjoinsIs(db, e, p[j - 1], p[j], ix[j - 1], ix[j]);
    }
  }

  /** The blocks of the last `k` indices, newest first. */
  ghost predicate Names(db: Db, ix: seq<nat>, k: nat, blocks: seq<Blk>) {
    && |blocks| == Min(k, |ix|)
    && forall t :: 0 <= t < |blocks| ==> NameAt(db, ix, blocks, t)
  }

  predicate NameAt(db: Db, ix: seq<nat>, blocks: seq<Blk>, t: nat)
    requires t < |blocks|
  {
    t < |ix| && ix[|ix| - 1 - t] < |db.blocks| && blocks[t] == db.blocks[ix[|ix| - 1 - t]]
  }

  lemma KeyedPrefix(db: Db, e: nat, p: seq<Entry>, ix: seq<nat>, n: nat)
    requires Keyed(db, e, p, ix) && n <= |ix|
    ensures Keyed(db, e, p[..n], ix[..n])
  {
    forall i: nat, j: nat | i < j < n ensures UpAt(ix[..n], i, j) { assert UpAt(ix, i, j); }
    forall j | 0 <= j < n ensures KeyOf(db, e, p[..n][j], ix[..n][j]) { assert KeyOf(db, e, p[j], ix[j]); }
  }

  lemma {:induction false} NewestBlocksAre(db: Db, e: nat, p: seq<Entry>, ix: seq<nat>, k: nat)
    requires DbOk(db) && Keyed(db, e, p, ix)
    ensures Names(db, ix, k, NewestBlocks(db, p, k))
    decreases k
  {
    if p != [] && k > 0 {
      var n := |ix| - 1;
      assert KeyOf(db, e, p[n], ix[n]);
      BlockOfKey(db, e, p[n], ix[n]);
      KeyedPrefix(db, e, p, ix, n);
      NewestBlocksAre(db, e, p[..n], ix[..n], k - 1);
      NamesOneMore(db, ix, k, NewestBlocks(db, p[..n], k - 1));
    }
  }

  lemma NamesOneMore(db: Db, ix: seq<nat>, k: nat, rest: seq<Blk>)
    requires ix != [] && k > 0 && ix[|ix| - 1] < |db.blocks| && Names(db, ix[..|ix| - 1], k - 1, rest)
    ensures Names(db, ix, k, [db.blocks[ix[|ix| - 1]]] + rest)
  {
    var all := [db.blocks[ix[|ix| - 1]]] + rest;
    forall t | 0 <= t < |all| ensures NameAt(db, ix, all, t) {
      if t > 0 { assert NameAt(db, ix[..|ix| - 1], rest, t - 1); }
    }
  }

  /** Without a gap the indices count down by one. */
  lemma {:induction false} TightCounts(ix: seq<nat>, k: nat, t: nat)
    requires Tight(ix, k) && t < Min(k, |ix|)
    ensures ix[|ix| - 1 - t] == ix[|ix| - 1] - t
  {
    if t > 0 {
      TightCounts(ix, k, t - 1);
      assert Adjacent(ix, |ix| - t);
    }
  }

  lemma SameBlock(db: Db, i: nat, j: nat)
    requires DbOk(db) && i < |db.blocks| && j < |db.blocks| && db.blocks[i] == db.blocks[j]
    ensures i == j
  {
    assert i == j || (if i < j then Older(db, i, j) else Older(db, j, i));
  }

  /** Blocks `s - 1` down to `s - m`, then those named by `ix`, the first of which comes next. */
  ghost predicate Chains(db: Db, ix: seq<nat>, s: nat, m: nat, k: nat, used: seq<Blk>) {
    && m <= s <= |db.blocks|
    && m <= |used| && used[..m] == Descend(db, s, m)
    && Names(db, ix, k, used[m..])
    && (ix != [] ==> ix[|ix| - 1] == s - m - 1)
  }

  lemma DescentIsTight(db: Db, ix: seq<nat>, s: nat, m: nat, k: nat, used: seq<Blk>, j: nat)
    requires DbOk(db) && Chains(db, ix, s, m, k, used) && |used| <= s && used == Descend(db, s, |used|)
    requires j < |ix| && |ix| - 1 - j < k
    ensures ix[j] == s - m - |ix| + j
  {
    var t := |ix| - 1 - j;
    assert NameAt(db, ix, used[m..], t);
    DescendAt(db, s, |used|, m + t);
    SameBlock(db, ix[j], s - 1 - m - t);
  }

  lemma TightIsDescent(db: Db, ix: seq<nat>, s: nat, m: nat, k: nat, used: seq<Blk>)
    requires DbOk(db) && Chains(db, ix, s, m, k, used) && Tight(ix, k)
    ensures |used| <= s && used == Descend(db, s, |used|)
  {
    if |used| > m { TightCounts(ix, k, |used| - m - 1); }
    forall t | 0 <= t < |used| ensures used[t] == Descend(db, s, |used|)[t] {
      DescendAt(db, s, |used|, t);
      if t < m {
        DescendAt(db, s, m, t);
      } else {
        assert NameAt(db, ix, used[m..], t - m);
        TightCounts(ix, k, t - m);
      }
    }
  }

  /** The blocks used are consecutive exactly when the entries are. */
  lemma DescentIffTight(db: Db, ix: seq<nat>, s: nat, m: nat, k: nat, used: seq<Blk>)
    requires DbOk(db) && Chains(db, ix, s, m, k, used)
    ensures |used| <= s && used == Descend(db, s, |used|) <==> Tight(ix, k)
  {
    if |used| <= s && used == Descend(db, s, |used|) {
      forall j: nat | 0 < j < |ix| && |ix| - j < k ensures Adjacent(ix, j) {
        DescentIsTight(db, ix, s, m, k, used, j);
        DescentIsTight(db, ix, s, m, k, used, j - 1);
      }
    }
    if Tight(ix, k) { TightIsDescent(db, ix, s, m, k, used); }
  }

  // ---------------------------------------------------------------------------------------------
  // The plain walk at any floor
  // ---------------------------------------------------------------------------------------------

  lemma PlainAbove(env: Env, req: Request, f: nat)
    requires f > req.version
    ensures PlainBlocks(Pruned(env, f), req) == []
  {
  }

  lemma PlainAt(env: Env, req: Request, f: nat, s: nat)
    requires DbOk(env.db) && env.db.floor <= req.version && f <= req.version
    requires StartIndex(env.db, req.epoch, req.version) == s > 0
    ensures s <= |env.db.blocks|
    ensures PlainBlocks(Pruned(env, f), req)
            == Descend(env.db, s, Min(env.cfg.aggressiveBlockHistory, s - Low(PrunedDb(env.db, f), req.epoch, s)))
  {
    assert StartIndex(PrunedDb(env.db, f), req.epoch, req.version) == s;
    PlainWalkAt(env, req, f, s);
  }

  /** Some floor ends the plain walk after any `n` blocks of the epoch. */
  lemma LowAtFloor(db: Db, e: nat, s: nat, n: nat)
    requires DbOk(db) && 0 < n <= s <= |db.blocks| && forall i: nat :: s - n <= i < s ==> db.blocks[i].epoch == e
    ensures Low(PrunedDb(db, db.blocks[s - n].last), e, s) == s - n
  {
    var d := PrunedDb(db, db.blocks[s - n].last);
    forall i: nat | s - n <= i < s ensures In(d, e, i) {
      if s - n < i { assert Older(db, s - n, i); }
    }
    LowJoin(d, e, s - n, s);
    if s - n > 0 { assert Older(db, s - n - 1, s - n); }
  }

  // ---------------------------------------------------------------------------------------------
  // One request: the blocks it uses are those of a plain walk exactly when there is no gap
  // ---------------------------------------------------------------------------------------------

  /** What every request keeps, at any floor. */
  ghost predicate GapInv(env: Env, c: Cache) {
    c.prices != [] ==>
      c.lastUpdatedEpoch.Some? && exists ix :: Known(env, c.lastUpdatedEpoch.value, c.prices, ix)
  }

  lemma PickUp(env: Env, c: Cache, e: nat) returns (ix: seq<nat>)
    requires GapInv(env, c)
    ensures Known(env, e, Carried(c, e), ix)
  {
    if Carried(c, e) == [] {
      ix := [];
    } else {
      ix :| Known(env, e, c.prices, ix);
    }
  }

  /** The entries up to the one met, and the blocks they stand for. */
  lemma MetPrefix(db: Db, e: nat, p: seq<Entry>, ix: seq<nat>, q: nat) returns (n: nat)
    requires DbOk(db) && Keyed(db, e, p, ix) && q in ix
    ensures 0 < n <= |ix| && ix[n - 1] == q < |db.blocks| && UpTo(p, e, db.blocks[q].last) == p[..n]
  {
    var j :| 0 <= j < |ix| && ix[j] == q;
    n := j + 1;
    assert KeyOf(db, e, p[j], q);
    forall i | 0 <= i < n ensures p[i].epoch == e && p[i].version <= db.blocks[q].last {
      assert KeyOf(db, e, p[i], ix[i]);
      if i < j { assert UpAt(ix, i, j) && Older(db, ix[i], q); }
    }
    forall i | n <= i < |p| ensures p[i].epoch == e && p[i].version > db.blocks[q].last {
      assert KeyOf(db, e, p[i], ix[i]) && UpAt(ix, j, i) && Older(db, q, ix[i]);
    }
    assert p[..n] + p[n..] == p;
    UpToSplit(p[..n], p[n..], e, db.blocks[q].last);
  }

  /** The walk, and the cached blocks `iy` that it can fall back on. */
  ghost predicate Meets(db: Db, e: nat, h: nat, p: seq<Entry>, ix: seq<nat>, s: nat, w: Walked, iy: seq<nat>) {
    && |w.blocks| <= h && |w.blocks| <= s <= |db.blocks| && |p| == |ix|
    && Goes(db, ix, e, s, h, |w.blocks|, w.hit)
    && w.blocks == Descend(db, s, |w.blocks|)
    && iy <= ix && (w.hit <==> iy != [])
    && (w.hit ==>
          && iy[|iy| - 1] == s - |w.blocks| - 1 && UpTo(p, e, w.lookup) == p[..|iy|]
          && w.lookup == db.blocks[s - |w.blocks| - 1].last)
  }

  lemma WalkMeets(db: Db, e: nat, h: nat, p: seq<Entry>, ix: seq<nat>, s: nat, w: Walked) returns (iy: seq<nat>)
    requires DbOk(db) && Keyed(db, e, p, ix) && 0 < s <= |db.blocks| && w == Walk(db, p, e, db.blocks[s - 1].last, h)
    ensures Meets(db, e, h, p, ix, s, w, iy)
  {
    WalkGoes(db, p, ix, e, s, h);
    if w.hit {
      var n := MetPrefix(db, e, p, ix, s - |w.blocks| - 1);
      iy := ix[..n];
    } else {
      iy := [];
    }
  }

  lemma RequestMeets(env: Env, c: Cache, req: Request, ix: seq<nat>, s: nat) returns (iy: seq<nat>)
    requires DbOk(env.db) && Known(env, req.epoch, Carried(c, req.epoch), ix)
    requires StartIndex(env.db, req.epoch, req.version) == s > 0
    ensures Meets(env.db, req.epoch, env.cfg.aggressiveBlockHistory, Carried(c, req.epoch), ix, s,
                  WalkFor(env, c, req), iy)
  {
    StartIs(env.db, req.epoch, req.version);
    iy := WalkMeets(env.db, req.epoch, env.cfg.aggressiveBlockHistory, Carried(c, req.epoch), ix, s,
                    WalkFor(env, c, req));
  }

  lemma ChainsOn(db: Db, e: nat, p: seq<Entry>, ix: seq<nat>, s: nat, k: nat, head: seq<Blk>, tail: seq<Blk>)
    requires DbOk(db) && Keyed(db, e, p, ix) && |head| <= s <= |db.blocks| && head == Descend(db, s, |head|)
    requires ix != [] ==> ix[|ix| - 1] == s - |head| - 1
    requires tail == NewestBlocks(db, p, k)
    ensures Chains(db, ix, s, |head|, k, head + tail)
  {
    NewestBlocksAre(db, e, p, ix, k);
    assert (head + tail)[..|head|] == head && (head + tail)[|head|..] == tail;
  }

  /** What the blocks used are, and what it means that the entries have no gap. */
  lemma UsedByWalk(db: Db, h: nat, e: nat, p: seq<Entry>, ix: seq<nat>, s: nat, w: Walked, iy: seq<nat>)
    requires DbOk(db) && Keyed(db, e, p, ix) && Meets(db, e, h, p, ix, s, w, iy)
    ensures Chains(db, iy, s, |w.blocks|, h - |w.blocks|, UsedBy(db, h, e, p, w))
    ensures MeetsNoGap(db, h, e, p, w) <==> Tight(iy, h - |w.blocks|)
  {
    var met, k := p[..|iy|], h - |w.blocks|;
    KeyedPrefix(db, e, p, ix, |iy|);
    assert iy == ix[..|iy|];
    assert UsedBy(db, h, e, p, w) == w.blocks + NewestBlocks(db, met, k);
    ChainsOn(db, e, met, iy, s, k, w.blocks, NewestBlocks(db, met, k));
    NoGapIs(db, e, met, iy, k);
  }

  lemma UsedEpoch(db: Db, e: nat, p: seq<Entry>, ix: seq<nat>, iy: seq<nat>, s: nat, m: nat, k: nat, used: seq<Blk>,
                  t: nat)
    requires Keyed(db, e, p, ix) && iy <= ix && Chains(db, iy, s, m, k, used) && t < |used|
    requires AllIn(db, e, s - m, s)
    ensures used[t].epoch == e
  {
    if t < m {
      DescendAt(db, s, m, t);
      assert used[t] == used[..m][t] && In(db, e, s - 1 - t);
    } else {
      assert NameAt(db, iy, used[m..], t - m);
      var j := |iy| - 1 - (t - m);
      assert KeyOf(db, e, p[j], ix[j]);
    }
  }

  /** The cache made no difference to which blocks are used: a plain walk at floor `f` visits the same ones. */
  ghost predicate AsPlainAt(env: Env, c: Cache, req: Request, f: nat) {
    BlocksUsed(env, c, req) == PlainBlocks(Pruned(env, f), req)
  }

  /** A tip outside the readable blocks of the epoch is not cached. */
  lemma DeadTip(env: Env, c: Cache, req: Request)
    requires DbOk(env.db) && GapInv(env, c) && env.db.floor <= req.version
    requires StartIndex(env.db, req.epoch, req.version) == 0
    ensures Idle(WalkFor(env, c, req)) && PlainBlocks(env, req) == []
  {
    var db, e, p, v := env.db, req.epoch, Carried(c, req.epoch), req.version;
    var ix := PickUp(env, c, e);
    StartIs(db, e, v);
    forall j | 0 <= j < |p| ensures p[j].version != v {
      assert KeyOf(db, e, p[j], ix[j]);
      BlockOfKey(db, e, p[j], ix[j]);
    }
  }

  lemma DescentEpochs(db: Db, e: nat, p: seq<Entry>, ix: seq<nat>, iy: seq<nat>, s: nat, m: nat, k: nat, used: seq<Blk>)
    requires Keyed(db, e, p, ix) && iy <= ix && Chains(db, iy, s, m, k, used)
    requires AllIn(db, e, s - m, s)
    requires |used| <= s && used == Descend(db, s, |used|)
    ensures forall i: nat :: s - |used| <= i < s ==> db.blocks[i].epoch == e
  {
    forall i: nat | s - |used| <= i < s ensures db.blocks[i].epoch == e {
      UsedEpoch(db, e, p, ix, iy, s, m, k, used, s - 1 - i);
      DescendAt(db, s, |used|, s - 1 - i);
    }
  }

  /** A floor at which the plain walk visits exactly the `n` blocks below `s`. */
  lemma FloorFor(env: Env, req: Request, s: nat, n: nat)
    requires DbOk(env.db) && env.db.floor <= req.version && StartIndex(env.db, req.epoch, req.version) == s > 0
    requires 0 < n <= s <= |env.db.blocks| && n <= env.cfg.aggressiveBlockHistory
    requires forall i: nat :: s - n <= i < s ==> env.db.blocks[i].epoch == req.epoch
    ensures PlainBlocks(Pruned(env, env.db.blocks[s - n].last), req) == Descend(env.db, s, n)
  {
    StartIs(env.db, req.epoch, req.version);
    if n > 1 { assert Older(env.db, s - n, s - 1); }
    LowAtFloor(env.db, req.epoch, s, n);
    PlainAt(env, req, env.db.blocks[s - n].last, s);
  }

  lemma PlainIsDescent(env: Env, req: Request, f: nat, s: nat)
    requires DbOk(env.db) && env.db.floor <= req.version && StartIndex(env.db, req.epoch, req.version) == s > 0
    ensures s <= |env.db.blocks|
    ensures var blocks := PlainBlocks(Pruned(env, f), req);
            |blocks| <= s && blocks == Descend(env.db, s, |blocks|)
  {
    StartIs(env.db, req.epoch, req.version);
    if f <= req.version { PlainAt(env, req, f, s); } else { PlainAbove(env, req, f); }
  }

  /** The blocks used are consecutive exactly when there is no gap, and then they all belong to the epoch. */
  lemma UsedDescend(env: Env, c: Cache, req: Request, s: nat)
    requires DbOk(env.db) && GapInv(env, c) && StartIndex(env.db, req.epoch, req.version) == s > 0
    ensures s <= |env.db.blocks|
    ensures var used := BlocksUsed(env, c, req);
            && |used| <= env.cfg.aggressiveBlockHistory
            && (|used| <= s && used == Descend(env.db, s, |used|) <==> GapFree(env, c, req))
            && (GapFree(env, c, req) ==>
                  forall i: nat :: s - |used| <= i < s ==> env.db.blocks[i].epoch == req.epoch)
  {
    var p, e, h, used := Carried(c, req.epoch), req.epoch, env.cfg.aggressiveBlockHistory, BlocksUsed(env, c, req);
    var m := |WalkFor(env, c, req).blocks|;
    var ix := PickUp(env, c, e);
    var iy := RequestMeets(env, c, req, ix, s);
    UsedByWalk(env.db, h, e, p, ix, s, WalkFor(env, c, req), iy);
    DescentIffTight(env.db, iy, s, m, h - m, used);
    if GapFree(env, c, req) { DescentEpochs(env.db, e, p, ix, iy, s, m, h - m, used); }
  }

  lemma LiveUses(env: Env, c: Cache, req: Request, s: nat)
    requires DbOk(env.db) && GapInv(env, c) && env.db.floor <= req.version
    requires StartIndex(env.db, req.epoch, req.version) == s > 0
    ensures GapFree(env, c, req) ==> exists f :: AsPlainAt(env, c, req, f)
    ensures forall f :: AsPlainAt(env, c, req, f) ==> GapFree(env, c, req)
  {
    UsedDescend(env, c, req, s);
    var used := BlocksUsed(env, c, req);
    if GapFree(env, c, req) {
      if used == [] {
        PlainAbove(env, req, req.version + 1);
        assert AsPlainAt(env, c, req, req.version + 1);
      } else {
        FloorFor(env, req, s, |used|);
        assert AsPlainAt(env, c, req, env.db.blocks[s - |used|].last);
      }
    }
    forall f | AsPlainAt(env, c, req, f) ensures GapFree(env, c, req) { PlainIsDescent(env, req, f, s); }
  }

  /**
   Whatever was pruned since its entries were recorded: the blocks that a request uses are those of a plain walk, over
   the database at some floor, exactly when the entries it falls back on have no gap.
   */
  lemma PlainExactlyWithoutGap(env: Env, c: Cache, req: Request)
    requires DbOk(env.db) && GapInv(env, c) && env.db.floor <= req.version
    ensures (exists f :: AsPlainAt(env, c, req, f)) <==> GapFree(env, c, req)
  {
    var s := StartIndex(env.db, req.epoch, req.version);
    if s == 0 {
      DeadTip(env, c, req);
      assert AsPlainAt(env, c, req, env.db.floor);
    } else {
      LiveUses(env, c, req, s);
    }
  }

  // ---------------------------------------------------------------------------------------------
  // The prices used are those of the blocks used
  // ---------------------------------------------------------------------------------------------

  lemma PriceNow(env: Env, b: Blk)
    requires env.db.floor <= b.last
    ensures Aged(env, b, FinalPrices(env)(b))
  {
    assert Pruned(env, env.db.floor) == env;
  }

  ghost predicate PricedAs(env: Env, used: seq<Blk>, prices: seq<nat>) {
    |prices| == |used| && forall t :: 0 <= t < |used| ==> Aged(env, used[t], prices[t])
  }

  // ---------------------------------------------------------------------------------------------
  // What a request records
  // ---------------------------------------------------------------------------------------------

  ghost predicate AllBelow(ix: seq<nat>, i: nat) {
    forall j :: 0 <= j < |ix| ==> ix[j] < i
  }

  lemma KeysAreBelow(db: Db, e: nat, p: seq<Entry>, ix: seq<nat>, i: nat)
    requires DbOk(db) && Keyed(db, e, p, ix) && AllBelow(ix, i) && i < |db.blocks|
    ensures KeysBelow(p, e, db.blocks[i].last)
  {
    forall j | 0 <= j < |p| ensures p[j].epoch == e && p[j].version < db.blocks[i].last {
      assert KeyOf(db, e, p[j], ix[j]) && Older(db, ix[j], i);
    }
  }

  lemma KeysAreAbove(db: Db, e: nat, p: seq<Entry>, ix: seq<nat>, i: nat)
    requires DbOk(db) && Keyed(db, e, p, ix) && i < |db.blocks| && forall j :: 0 <= j < |ix| ==> i < ix[j]
    ensures KeysAbove(p, e, db.blocks[i].last)
  {
    forall j | 0 <= j < |p| ensures p[j].epoch == e && p[j].version > db.blocks[i].last {
      assert KeyOf(db, e, p[j], ix[j]) && Older(db, i, ix[j]);
    }
  }

  /** Fresh blocks go above all entries, or below a full cache. */
  ghost predicate Records(db: Db, price: Pricing, h: nat, e: nat, p: seq<Entry>, ix: seq<nat>, s: nat, m: nat,
                          hit: bool, q: seq<Entry>)
    requires m <= s <= |db.blocks|
  {
    || (AllBelow(ix, s - m) && q == p + RunOf(db, price, e, s - m, s))
    || (|p| == h && !hit && q == RunOf(db, price, e, s - m, s) + p)
  }

  lemma RecordOnTop(db: Db, price: Pricing, e: nat, p: seq<Entry>, ix: seq<nat>, s: nat, m: nat)
    requires DbOk(db) && Keyed(db, e, p, ix) && 0 < m <= s <= |db.blocks| && AllBelow(ix, s - m)
    ensures InsertAll(price, p, e, Descend(db, s, m)) == p + RunOf(db, price, e, s - m, s)
  {
    KeysAreBelow(db, e, p, ix, s - m);
    InsertRun(db, price, p, [], e, s, m);
    AppendNothing(p);
    AppendNothing(p + RunOf(db, price, e, s - m, s));
  }

  lemma RecordedIs(db: Db, price: Pricing, h: nat, e: nat, p: seq<Entry>, ix: seq<nat>, s: nat, m: nat, hit: bool)
    requires DbOk(db) && Keyed(db, e, p, ix) && Settled(db, e, h, ix) && 0 < m <= s <= |db.blocks|
    requires Goes(db, ix, e, s, h, m, hit)
    ensures Records(db, price, h, e, p, ix, s, m, hit, InsertAll(price, p, e, Descend(db, s, m)))
  {
    assert In(db, e, s - 1);
    WhereFresh(db, e, h, p, ix, s - 1);
    if AllBelow(ix, s - 1) {
      forall j | 0 <= j < |ix| ensures ix[j] < s - m { assert In(db, e, ix[j]) || ix[j] < s - m; }
      RecordOnTop(db, price, e, p, ix, s, m);
    } else {
      KeysAreAbove(db, e, p, ix, s - 1);
      InsertRun(db, price, [], p, e, s, m);
      AppendNothing(p);
      AppendNothing(RunOf(db, price, e, s - m, s));
    }
  }

  function Range(lo: nat, hi: nat): (r: seq<nat>)
    requires lo <= hi
    ensures |r| == hi - lo && forall j :: 0 <= j < |r| ==> r[j] == lo + j
  {
    seq(hi - lo, j requires 0 <= j < hi - lo => lo + j)
  }

  lemma JoinUp(ix: seq<nat>, lo: nat, hi: nat)
    requires Up(ix) && AllBelow(ix, lo) && lo <= hi
    ensures Up(ix + Range(lo, hi))
  {
    var iq := ix + Range(lo, hi);
    forall i: nat, j: nat | i < j < |iq| ensures UpAt(iq, i, j) {
      if j < |ix| { assert UpAt(ix, i, j); }
    }
  }

  lemma JoinKeyed(env: Env, e: nat, p: seq<Entry>, ix: seq<nat>, lo: nat, hi: nat)
    requires Keyed(env.db, e, p, ix) && AllAged(env, p, ix) && AllBelow(ix, lo) && lo <= hi <= |env.db.blocks|
    requires AllIn(env.db, e, lo, hi)
    ensures Keyed(env.db, e, p + RunOf(env.db, FinalPrices(env), e, lo, hi), ix + Range(lo, hi))
    ensures AllAged(env, p + RunOf(env.db, FinalPrices(env), e, lo, hi), ix + Range(lo, hi))
  {
    var q, iq := p + RunOf(env.db, FinalPrices(env), e, lo, hi), ix + Range(lo, hi);
    JoinUp(ix, lo, hi);
    forall j | 0 <= j < |iq|
      ensures KeyOf(env.db, e, q[j], iq[j]) && AgedAt(env, q[j], iq[j])
    {
      if j < |ix| {
        assert KeyOf(env.db, e, p[j], ix[j]) && AgedAt(env, p[j], ix[j]);
      } else {
        assert iq[j] == lo + (j - |ix|) && In(env.db, e, iq[j]);
        assert q[j] == EntryOf(env.db, FinalPrices(env), e, iq[j]);
        PriceNow(env, env.db.blocks[iq[j]]);
      }
    }
  }

  lemma SuffixKnown(env: Env, e: nat, q: seq<Entry>, iq: seq<nat>, n: nat)
    requires Keyed(env.db, e, q, iq) && AllAged(env, q, iq) && n <= |iq|
    ensures Keyed(env.db, e, q[n..], iq[n..]) && AllAged(env, q[n..], iq[n..])
  {
    forall i: nat, j: nat | i < j < |iq| - n ensures UpAt(iq[n..], i, j) { assert UpAt(iq, n + i, n + j); }
    forall j | 0 <= j < |iq| - n
      ensures KeyOf(env.db, e, q[n..][j], iq[n..][j]) && AgedAt(env, q[n..][j], iq[n..][j])
    {
      assert KeyOf(env.db, e, q[n + j], iq[n + j]) && AgedAt(env, q[n + j], iq[n + j]);
    }
  }

  /** The last entry met, when the walk comes from above. */
  lemma MetIsLast(db: Db, ix: seq<nat>, e: nat, s: nat, h: nat, m: nat)
    requires Up(ix) && AllBelow(ix, s) && Goes(db, ix, e, s, h, m, true)
    ensures ix != [] && ix[|ix| - 1] == s - m - 1
  {
    var j :| 0 <= j < |ix| && ix[j] == s - m - 1;
    var top := ix[|ix| - 1];
    assert j == |ix| - 1 || UpAt(ix, j, |ix| - 1);
    assert In(db, e, top) || top < s - m;
    assert top in ix;
  }

  lemma Junction(db: Db, e: nat, h: nat, ix: seq<nat>, s: nat, m: nat, hit: bool)
    requires Up(ix) && 0 < m <= s && AllBelow(ix, s - m) && Goes(db, ix, e, s, h, m, hit)
    ensures m == h || Bottom(db, e, s - m) || (ix != [] && s - m == ix[|ix| - 1] + 1)
  {
    if hit { MetIsLast(db, ix, e, s, h, m); }
  }

  /** Neighbours after fresh blocks were put on top. */
  lemma JoinedAt(db: Db, e: nat, h: nat, ix: seq<nat>, s: nat, m: nat, iq: seq<nat>, j: nat)
    requires Settled(db, e, h, ix) && 0 < m <= s && iq == ix + Range(s - m, s) && 0 < j < |iq|
    requires j == |ix| ==> Bottom(db, e, s - m) || s - m == ix[|ix| - 1] + 1
    ensures Adjacent(iq, j) || Bottom(db, e, iq[j])
  {
    if j < |ix| { assert Adjacent(ix, j) || Bottom(db, e, ix[j]); }
  }

  lemma JoinSettled(db: Db, e: nat, h: nat, ix: seq<nat>, s: nat, m: nat, hit: bool, iq: seq<nat>, n: nat)
    requires Up(ix) && Settled(db, e, h, ix) && 0 < m <= s && AllBelow(ix, s - m) && Goes(db, ix, e, s, h, m, hit)
    requires iq == ix + Range(s - m, s) && n == Minus(|iq|, h)
    ensures Settled(db, e, h, iq[n..])
  {
    Junction(db, e, h, ix, s, m, hit);
    var iz := iq[n..];
    forall j: nat | 0 < j < |iz| ensures Adjacent(iz, j) || Bottom(db, e, iz[j]) {
      JoinedAt(db, e, h, ix, s, m, iq, n + j);
    }
  }

  lemma JoinBelow(ix: seq<nat>, s: nat, m: nat, n: nat)
    requires m <= s && AllBelow(ix, s) && n <= |ix| + m
    ensures AllBelow((ix + Range(s - m, s))[n..], s)
  {
    var iq := ix + Range(s - m, s);
    forall j | 0 <= j < |iq[n..]| ensures iq[n..][j] < s { assert iq[n..][j] == iq[n + j]; }
  }

  lemma EvictKnown(env: Env, e: nat, q: seq<Entry>, iq: seq<nat>, n: nat)
    requires Keyed(env.db, e, q, iq) && AllAged(env, q, iq) && n == Minus(|iq|, env.cfg.aggressiveBlockHistory)
    requires Settled(env.db, e, env.cfg.aggressiveBlockHistory, iq[n..])
    ensures Known(env, e, Evict(q, env.cfg.aggressiveBlockHistory), iq[n..])
  {
    SuffixKnown(env, e, q, iq, n);
    assert Evict(q, env.cfg.aggressiveBlockHistory) == q[n..];
  }

  lemma StepAbove(env: Env, e: nat, p: seq<Entry>, ix: seq<nat>, s: nat, m: nat, hit: bool) returns (iz: seq<nat>)
    requires Known(env, e, p, ix) && 0 < m <= s <= |env.db.blocks| && AllBelow(ix, s - m)
    requires Goes(env.db, ix, e, s, env.cfg.aggressiveBlockHistory, m, hit)
    ensures Known(env, e, Evict(p + RunOf(env.db, FinalPrices(env), e, s - m, s), env.cfg.aggressiveBlockHistory), iz)
    ensures AllBelow(iz, s)
  {
    var q, iq := p + RunOf(env.db, FinalPrices(env), e, s - m, s), ix + Range(s - m, s);
    var n := Minus(|iq|, env.cfg.aggressiveBlockHistory);
    iz := iq[n..];
    assert Keyed(env.db, e, q, iq) && AllAged(env, q, iq) by { JoinKeyed(env, e, p, ix, s - m, s); }
    assert Settled(env.db, e, env.cfg.aggressiveBlockHistory, iz) by {
      JoinSettled(env.db, e, env.cfg.aggressiveBlockHistory, ix, s, m, hit, iq, n);
    }
    EvictKnown(env, e, q, iq, n);
    JoinBelow(ix, s, m, n);
  }

  /** Every walk leaves a cache of the same shape. */
  lemma StepKeeps(env: Env, e: nat, p: seq<Entry>, ix: seq<nat>, s: nat, m: nat, hit: bool) returns (iz: seq<nat>)
    requires DbOk(env.db) && Known(env, e, p, ix) && m <= s <= |env.db.blocks|
    requires Goes(env.db, ix, e, s, env.cfg.aggressiveBlockHistory, m, hit)
    ensures Known(env, e, Evict(InsertAll(FinalPrices(env), p, e, Descend(env.db, s, m)),
                                env.cfg.aggressiveBlockHistory), iz)
    ensures iz == ix || AllBelow(iz, s)
  {
    iz := ix;
    var h, q := env.cfg.aggressiveBlockHistory, InsertAll(FinalPrices(env), p, e, Descend(env.db, s, m));
    if m > 0 {
      var run := RunOf(env.db, FinalPrices(env), e, s - m, s);
      RecordedIs(env.db, FinalPrices(env), h, e, p, ix, s, m, hit);
      if AllBelow(ix, s - m) && q == p + run {
        iz := StepAbove(env, e, p, ix, s, m, hit);
      } else {
        assert (run + p)[m..] == p;
      }
    }
  }

  /** Recording fresh blocks does not change what lies at or below the entry met. */
  lemma UpToRecorded(db: Db, price: Pricing, h: nat, e: nat, p: seq<Entry>, ix: seq<nat>, s: nat, w: Walked,
                     iy: seq<nat>)
    requires DbOk(db) && Keyed(db, e, p, ix) && Settled(db, e, h, ix) && Meets(db, e, h, p, ix, s, w, iy) && w.hit
    ensures UpTo(InsertAll(price, p, e, w.blocks), e, w.lookup) == p[..|iy|]
  {
    var m := |w.blocks|;
    if m > 0 {
      var run := RunOf(db, price, e, s - m, s);
      RecordedIs(db, price, h, e, p, ix, s, m, w.hit);
      RunOrder(db, price, e, s - m, s);
      MetIsAll(ix, iy, s - m);
      assert p[..|iy|] == p;
      LastKey(db, e, p, ix);
      UpToSplit(p, run, e, w.lookup);
    }
  }

  lemma {:induction false} UpGap(ix: seq<nat>, a: nat, b: nat)
    requires Up(ix) && a <= b < |ix|
    ensures ix[b] >= ix[a] + (b - a)
    decreases b
  {
    if a < b {
      assert UpAt(ix, b - 1, b);
      UpGap(ix, a, b - 1);
    }
  }

  lemma MetIsAll(ix: seq<nat>, iy: seq<nat>, i: nat)
    requires Up(ix) && iy <= ix && iy != [] && iy[|iy| - 1] + 1 == i && AllBelow(ix, i)
    ensures iy == ix
  {
    UpGap(ix, |iy| - 1, |ix| - 1);
  }

  lemma LastKey(db: Db, e: nat, p: seq<Entry>, ix: seq<nat>)
    requires DbOk(db) && Keyed(db, e, p, ix) && ix != []
    ensures KeyOf(db, e, p[|p| - 1], ix[|ix| - 1])
    ensures KeysBelow(p, e, db.blocks[ix[|ix| - 1]].last + 1)
  {
    var top := |ix| - 1;
    assert KeyOf(db, e, p[top], ix[top]);
    forall j | 0 <= j < |p| ensures p[j].epoch == e && p[j].version <= db.blocks[ix[top]].last {
      assert KeyOf(db, e, p[j], ix[j]);
      if j < top { assert UpAt(ix, j, top) && Older(db, ix[j], ix[top]); }
    }
  }

  lemma MergedByWalk(db: Db, price: Pricing, h: nat, e: nat, p: seq<Entry>, ix: seq<nat>, s: nat, w: Walked,
                     iy: seq<nat>)
    requires DbOk(db) && Keyed(db, e, p, ix) && Settled(db, e, h, ix) && Meets(db, e, h, p, ix, s, w, iy)
    ensures Follow(price, h, e, p, w).recorded == InsertAll(price, p, e, w.blocks)
    ensures Follow(price, h, e, p, w).merged == PricesOf(price, w.blocks) + Newest(p[..|iy|], h - |w.blocks|)
  {
    var recorded := InsertAll(price, p, e, w.blocks);
    if w.hit {
      UpToRecorded(db, price, h, e, p, ix, s, w, iy);
      MergeHit(price, h, e, recorded, w, p[..|iy|], Newest(p[..|iy|], h - |w.blocks|));
    } else {
      MergeFresh(price, h, recorded, e, w);
      AppendNothing(PricesOf(price, w.blocks));
    }
  }

  lemma RequestFollows(env: Env, c: Cache, req: Request)
    requires DbOk(env.db) && StartIndex(env.db, req.epoch, req.version) > 0
    ensures var o := Follow(FinalPrices(env), env.cfg.aggressiveBlockHistory, req.epoch, Carried(c, req.epoch),
                            WalkFor(env, c, req));
            Refreshed(env, c, req) == o.recorded && MergedPrices(env, c, req) == o.merged
  {
    RequestIsRedo(env, c, req);
  }

  lemma JoinedPrices(price: Pricing, blocks: seq<Blk>, entries: seq<Entry>, k: nat, head: seq<nat>, rest: seq<nat>,
                     t: nat)
    requires head == PricesOf(price, blocks) && rest == Newest(entries, k)
    ensures |head + rest| == |blocks| + Min(k, |entries|)
    ensures t < |blocks| ==> (head + rest)[t] == price(blocks[t])
    ensures |blocks| <= t < |head + rest| ==> (head + rest)[t] == entries[|entries| - 1 - (t - |blocks|)].price
  {
    PricesLength(price, blocks);
    NewestLength(entries, k);
    if t < |blocks| {
      PricesOfAt(price, blocks, t);
    } else if t < |head + rest| {
      NewestAt(entries, k, t - |blocks|);
    }
  }

  /** Each merged price is that of a fresh block or of an entry. */
  lemma MergedAt(db: Db, price: Pricing, h: nat, e: nat, p: seq<Entry>, ix: seq<nat>, s: nat, w: Walked, iy: seq<nat>,
                 merged: seq<nat>, t: nat)
    requires DbOk(db) && Keyed(db, e, p, ix) && Settled(db, e, h, ix) && Meets(db, e, h, p, ix, s, w, iy)
    requires merged == Follow(price, h, e, p, w).merged
    ensures |merged| == |w.blocks| + Min(h - |w.blocks|, |iy|)
    ensures t < |w.blocks| ==> merged[t] == price(w.blocks[t])
    ensures |w.blocks| <= t < |merged| ==> merged[t] == p[|iy| - 1 - (t - |w.blocks|)].price
  {
    MergedByWalk(db, price, h, e, p, ix, s, w, iy);
    JoinedPrices(price, w.blocks, p[..|iy|], h - |w.blocks|, PricesOf(price, w.blocks),
                 Newest(p[..|iy|], h - |w.blocks|), t);
  }

  lemma UsedIsAged(env: Env, e: nat, p: seq<Entry>, ix: seq<nat>, iy: seq<nat>, s: nat, m: nat, k: nat, used: seq<Blk>,
                   t: nat)
    requires |p| == |ix| && AllAged(env, p, ix) && iy <= ix && Chains(env.db, iy, s, m, k, used)
    requires AllIn(env.db, e, s - m, s) && t < |used|
    ensures t < m ==> used[t] == Descend(env.db, s, m)[t] && Aged(env, used[t], FinalPrices(env)(used[t]))
    ensures m <= t ==> t - m < |iy| && Aged(env, used[t], p[|iy| - 1 - (t - m)].price)
  {
    if t < m {
      DescendAt(env.db, s, m, t);
      assert In(env.db, e, s - 1 - t) && used[t] == used[..m][t];
      PriceNow(env, used[t]);
    } else {
      var j := |iy| - 1 - (t - m);
      assert NameAt(env.db, iy, used[m..], t - m);
      assert AgedAt(env, p[j], ix[j]) && ix[j] == iy[j];
    }
  }

  lemma PricesByWalk(env: Env, e: nat, p: seq<Entry>, ix: seq<nat>, s: nat, w: Walked, iy: seq<nat>, merged: seq<nat>)
    requires DbOk(env.db) && Known(env, e, p, ix) && Meets(env.db, e, env.cfg.aggressiveBlockHistory, p, ix, s, w, iy)
    requires merged == Follow(FinalPrices(env), env.cfg.aggressiveBlockHistory, e, p, w).merged
    ensures PricedAs(env, UsedBy(env.db, env.cfg.aggressiveBlockHistory, e, p, w), merged)
  {
    var h, m := env.cfg.aggressiveBlockHistory, |w.blocks|;
    var used := UsedBy(env.db, h, e, p, w);
    UsedByWalk(env.db, h, e, p, ix, s, w, iy);
    MergedAt(env.db, FinalPrices(env), h, e, p, ix, s, w, iy, merged, 0);
    forall t | 0 <= t < |used| ensures Aged(env, used[t], merged[t]) {
      MergedAt(env.db, FinalPrices(env), h, e, p, ix, s, w, iy, merged, t);
      UsedIsAged(env, e, p, ix, iy, s, m, h - m, used, t);
    }
  }

  lemma LivePrices(env: Env, c: Cache, req: Request, s: nat)
    requires DbOk(env.db) && GapInv(env, c) && StartIndex(env.db, req.epoch, req.version) == s > 0
    ensures PricedAs(env, BlocksUsed(env, c, req), MergedPrices(env, c, req))
  {
    var ix := PickUp(env, c, req.epoch);
    var iy := RequestMeets(env, c, req, ix, s);
    RequestFollows(env, c, req);
    PricesByWalk(env, req.epoch, Carried(c, req.epoch), ix, s, WalkFor(env, c, req), iy, MergedPrices(env, c, req));
  }

  /** The prices used are those of the blocks used, each from when it was last read. */
  lemma PricesAreThoseOfTheBlocks(env: Env, c: Cache, req: Request)
    requires DbOk(env.db) && GapInv(env, c) && env.db.floor <= req.version
    ensures PricedAs(env, BlocksUsed(env, c, req), MergedPrices(env, c, req))
  {
    var s := StartIndex(env.db, req.epoch, req.version);
    if s == 0 {
      DeadTip(env, c, req);
      IdleMergesNothing(env, c, req);
    } else {
      LivePrices(env, c, req, s);
    }
  }

  // ---------------------------------------------------------------------------------------------
  // What every request keeps
  // ---------------------------------------------------------------------------------------------

  lemma KnownBelow(db: Db, e: nat, q: seq<Entry>, iz: seq<nat>, tip: nat)
    requires DbOk(db) && Keyed(db, e, q, iz) && StartIndex(db, e, tip) > 0 && AllBelow(iz, StartIndex(db, e, tip))
    ensures Below(q, tip)
  {
    StartIs(db, e, tip);
    var s := StartIndex(db, e, tip);
    if q != [] {
      LastKey(db, e, q, iz);
      var top := iz[|iz| - 1];
      if top < s - 1 { assert Older(db, top, s - 1); }
    }
  }

  lemma BelowTip(db: Db, e: nat, p: seq<Entry>, ix: seq<nat>, tip: nat)
    requires DbOk(db) && Keyed(db, e, p, ix) && StartIndex(db, e, tip) > 0 && Below(p, tip)
    ensures AllBelow(ix, StartIndex(db, e, tip))
  {
    if ix != [] {
      LastKey(db, e, p, ix);
      TipIsAbove(db, e, tip, ix[|ix| - 1]);
      UpBelow(ix, StartIndex(db, e, tip));
    }
  }

  lemma UpBelow(ix: seq<nat>, i: nat)
    requires Up(ix) && ix != [] && ix[|ix| - 1] < i
    ensures AllBelow(ix, i)
  {
    forall j | 0 <= j < |ix| ensures ix[j] < i { assert j == |ix| - 1 || UpAt(ix, j, |ix| - 1); }
  }

  /** The entries after a walk. */
  lemma RefreshedIsKnown(env: Env, c: Cache, req: Request, s: nat) returns (iz: seq<nat>)
    requires DbOk(env.db) && GapInv(env, c) && StartIndex(env.db, req.epoch, req.version) == s > 0
    ensures Known(env, req.epoch, Evict(Refreshed(env, c, req), env.cfg.aggressiveBlockHistory), iz)
    ensures Below(Carried(c, req.epoch), req.version) ==>
              Below(Evict(Refreshed(env, c, req), env.cfg.aggressiveBlockHistory), req.version)
  {
    var e, w := req.epoch, WalkFor(env, c, req);
    var ix := PickUp(env, c, e);
    var iy := RequestMeets(env, c, req, ix, s);
    RequestFollows(env, c, req);
    MergedByWalk(env.db, FinalPrices(env), env.cfg.aggressiveBlockHistory, req.epoch, Carried(c, req.epoch), ix, s,
                 WalkFor(env, c, req), iy);
    iz := StepKeeps(env, e, Carried(c, e), ix, s, |w.blocks|, w.hit);
    if Below(Carried(c, e), req.version) {
      BelowTip(env.db, e, Carried(c, e), ix, req.version);
      KnownBelow(env.db, e, Evict(Refreshed(env, c, req), env.cfg.aggressiveBlockHistory), iz, req.version);
    }
  }

  lemma SomethingMerged(env: Env, c: Cache, req: Request)
    requires DbOk(env.db) && GapInv(env, c) && env.db.floor <= req.version && !Idle(WalkFor(env, c, req))
    ensures MergedPrices(env, c, req) != [] && StartIndex(env.db, req.epoch, req.version) > 0
  {
    var s, e := StartIndex(env.db, req.epoch, req.version), req.epoch;
    if s == 0 {
      DeadTip(env, c, req);
    } else {
      var ix := PickUp(env, c, e);
      var iy := RequestMeets(env, c, req, ix, s);
      RequestFollows(env, c, req);
      MergedByWalk(env.db, FinalPrices(env), env.cfg.aggressiveBlockHistory, e, Carried(c, e), ix, s,
                   WalkFor(env, c, req), iy);
      PricesLength(FinalPrices(env), WalkFor(env, c, req).blocks);
      NewestLength(Carried(c, e)[..|iy|], env.cfg.aggressiveBlockHistory - |WalkFor(env, c, req).blocks|);
    }
  }

  /** Every request, with any tip that can be read, keeps the invariant. */
  lemma EstimateKeepsGapInv(env: Env, c: Cache, req: Request)
    requires DbOk(env.db) && GapInv(env, c) && Computes(env.cfg) && env.db.floor <= req.version
    ensures GapInv(env, Estimate(env, c, req).0)
    ensures Below(Carried(c, req.epoch), req.version) ==> Behind(env, Estimate(env, c, req).0, req)
  {
    if !Served(env.cfg, c, req) {
      if Idle(WalkFor(env, c, req)) {
        var ix := PickUp(env, c, req.epoch);
      } else {
        SomethingMerged(env, c, req);
        var iz := RefreshedIsKnown(env, c, req, StartIndex(env.db, req.epoch, req.version));
        EstimationIs(env.cfg, env.chain(req.epoch).minGasUnitPrice, MergedPrices(env, c, req));
      }
    }
  }

  /** Where the walk stops is determined. */
  lemma GoesOneWay(db: Db, ix: seq<nat>, e: nat, s: nat, k: nat, m: nat, hit: bool, m': nat, hit': bool)
    requires Goes(db, ix, e, s, k, m, hit) && Goes(db, ix, e, s, k, m', hit')
    ensures m == m' && hit == hit'
  {
    NoFurther(db, ix, e, s, k, m, hit, m', hit');
    NoFurther(db, ix, e, s, k, m', hit', m, hit);
  }

  lemma NoFurther(db: Db, ix: seq<nat>, e: nat, s: nat, k: nat, m: nat, hit: bool, m': nat, hit': bool)
    requires Goes(db, ix, e, s, k, m, hit) && Goes(db, ix, e, s, k, m', hit')
    ensures m' <= m
    ensures m' == m ==> (hit ==> hit')
  {
    var i := Minus(s, m + 1);
    assert m == s || i == s - m - 1;
    assert m == k || m == s || i in ix || !In(db, e, i);
  }

  /** A recomputation, by what its walk does. */
  lemma RequestLeaves(env: Env, c: Cache, req: Request, ix: seq<nat>, s: nat, m: nat, hit: bool)
    requires DbOk(env.db) && GapInv(env, c) && Computes(env.cfg) && env.db.floor <= req.version
    requires !Served(env.cfg, c, req) && Known(env, req.epoch, Carried(c, req.epoch), ix)
    requires StartIndex(env.db, req.epoch, req.version) == s > 0 && (m > 0 || hit)
    requires Goes(env.db, ix, req.epoch, s, env.cfg.aggressiveBlockHistory, m, hit)
    ensures m <= s <= |env.db.blocks|
    ensures var w, next := WalkFor(env, c, req), Estimate(env, c, req).0;
            && |w.blocks| == m && w.hit == hit
            && next.lastUpdatedEpoch == Some(req.epoch) && next.lastUpdatedTime == Some(req.now)
            && next.prices == Evict(InsertAll(FinalPrices(env), Carried(c, req.epoch), req.epoch,
                                              Descend(env.db, s, m)), env.cfg.aggressiveBlockHistory)
  {
    var iy := RequestMeets(env, c, req, ix, s);
    var w := WalkFor(env, c, req);
    GoesOneWay(env.db, ix, req.epoch, s, env.cfg.aggressiveBlockHistory, m, hit, |w.blocks|, w.hit);
    RequestFollows(env, c, req);
    SomethingMerged(env, c, req);
    EstimationIs(env.cfg, env.chain(req.epoch).minGasUnitPrice, MergedPrices(env, c, req));
  }

  // ---------------------------------------------------------------------------------------------
  // Tips that do not go back
  // ---------------------------------------------------------------------------------------------

  /** As far down as blocks can be read, the cached ones count down by one. */
  lemma {:induction false} CountsDown(db: Db, e: nat, h: nat, ix: seq<nat>, s: nat, m: nat, v: nat)
    requires Settled(db, e, h, ix) && m < s && ix != [] && ix[|ix| - 1] == s - m - 1
    requires m + v < Min(h, s - Low(db, e, s))
    ensures v < |ix| && ix[|ix| - 1 - v] == s - m - 1 - v
    decreases v
  {
    if v > 0 {
      CountsDown(db, e, h, ix, s, m, v - 1);
      LowIsIn(db, e, s);
      assert In(db, e, s - m - 1 - v);
      var j := |ix| - v;
      assert ix[j] == s - m - v && !Bottom(db, e, ix[j]);
      assert j == 0 || Adjacent(ix, j);
    }
  }

  lemma NothingMet(db: Db, e: nat, h: nat, ix: seq<nat>, s: nat, m: nat)
    requires Goes(db, ix, e, s, h, m, false)
    ensures m == Min(h, s - Low(db, e, s))
  {
    LowJoin(db, e, s - m, s);
    if m < h { assert Bottom(db, e, s - m) && Low(db, e, s - m) == s - m; }
  }

  /** Coming from above everything cached, the walk and the entries cover what can still be read. */
  lemma CoversReadable(db: Db, e: nat, h: nat, p: seq<Entry>, ix: seq<nat>, s: nat, w: Walked, iy: seq<nat>,
                       used: seq<Blk>)
    requires Up(ix) && Settled(db, e, h, ix) && Meets(db, e, h, p, ix, s, w, iy) && AllBelow(ix, s)
    requires Chains(db, iy, s, |w.blocks|, h - |w.blocks|, used)
    ensures Descend(db, s, Min(h, s - Low(db, e, s))) <= used
  {
    var n, m := Min(h, s - Low(db, e, s)), |w.blocks|;
    if w.hit {
      MetIsLast(db, ix, e, s, h, m);
      SameLast(ix, iy);
      if n > m { CountsDown(db, e, h, ix, s, m, n - 1 - m); }
      assert n <= |used|;
      forall t | 0 <= t < n ensures used[t] == Descend(db, s, n)[t] {
        DescendAt(db, s, n, t);
        if t < m {
          DescendAt(db, s, m, t);
          assert used[t] == used[..m][t];
        } else {
          CountsDown(db, e, h, ix, s, m, t - m);
          assert NameAt(db, iy, used[m..], t - m);
        }
      }
    } else {
      NothingMet(db, e, h, ix, s, m);
    }
  }

  lemma SameLast(ix: seq<nat>, iy: seq<nat>)
    requires Up(ix) && iy <= ix && iy != [] && iy[|iy| - 1] == ix[|ix| - 1]
    ensures iy == ix
  {
    UpGap(ix, |iy| - 1, |ix| - 1);
  }

  lemma PlainNow(env: Env, req: Request, s: nat)
    requires DbOk(env.db) && env.db.floor <= req.version && StartIndex(env.db, req.epoch, req.version) == s > 0
    ensures s <= |env.db.blocks|
    ensures PlainBlocks(env, req)
            == Descend(env.db, s, Min(env.cfg.aggressiveBlockHistory, s - Low(env.db, req.epoch, s)))
  {
    assert PrunedDb(env.db, env.db.floor) == env.db && Pruned(env, env.db.floor) == env;
    PlainAt(env, req, env.db.floor, s);
  }

  lemma ForwardCovers(env: Env, c: Cache, req: Request, s: nat)
    requires DbOk(env.db) && GapInv(env, c) && env.db.floor <= req.version && Below(Carried(c, req.epoch), req.version)
    requires StartIndex(env.db, req.epoch, req.version) == s > 0
    ensures PlainBlocks(env, req) <= BlocksUsed(env, c, req)
  {
    var p, e, h := Carried(c, req.epoch), req.epoch, env.cfg.aggressiveBlockHistory;
    var ix := PickUp(env, c, e);
    var iy := RequestMeets(env, c, req, ix, s);
    UsedByWalk(env.db, h, e, p, ix, s, WalkFor(env, c, req), iy);
    BelowTip(env.db, e, p, ix, req.version);
    CoversReadable(env.db, e, h, p, ix, s, WalkFor(env, c, req), iy, BlocksUsed(env, c, req));
    PlainNow(env, req, s);
  }

  /** If the lowest of `n` blocks can be read, the plain walk visits all of them. */
  lemma AllReadable(env: Env, req: Request, s: nat, n: nat)
    requires DbOk(env.db) && env.db.floor <= req.version && StartIndex(env.db, req.epoch, req.version) == s > 0
    requires 0 < n <= s <= |env.db.blocks| && n <= env.cfg.aggressiveBlockHistory
    requires env.db.floor <= env.db.blocks[s - n].last
    requires forall i: nat :: s - n <= i < s ==> env.db.blocks[i].epoch == req.epoch
    ensures n <= |PlainBlocks(env, req)|
  {
    PlainNow(env, req, s);
    forall i: nat | s - n <= i < s ensures In(env.db, req.epoch, i) { InAbove(env.db, req.epoch, s - n, i); }
    LongLow(env.db, req.epoch, s - n, s);
  }

  /** Without a gap the floor of the plain walk need not lie ahead. */
  lemma ForwardFloor(env: Env, c: Cache, req: Request, s: nat)
    requires DbOk(env.db) && GapInv(env, c) && env.db.floor <= req.version && Below(Carried(c, req.epoch), req.version)
    requires StartIndex(env.db, req.epoch, req.version) == s > 0 && GapFree(env, c, req)
    ensures exists f: nat :: f <= env.db.floor && AsPlainAt(env, c, req, f)
  {
    var used, n := BlocksUsed(env, c, req), |BlocksUsed(env, c, req)|;
    ForwardCovers(env, c, req, s);
    UsedDescend(env, c, req, s);
    if n > 0 && env.db.blocks[s - n].last <= env.db.floor {
      FloorFor(env, req, s, n);
      assert AsPlainAt(env, c, req, env.db.blocks[s - n].last);
    } else {
      if n > 0 { AllReadable(env, req, s, n); }
      assert Pruned(env, env.db.floor) == env && PlainBlocks(env, req) == used;
      assert AsPlainAt(env, c, req, env.db.floor);
    }
  }

  /** With a tip above everything cached: what can still be read is used first, and no gap means an earlier floor. */
  lemma ForwardExactlyWithoutGap(env: Env, c: Cache, req: Request)
    requires DbOk(env.db) && GapInv(env, c) && env.db.floor <= req.version && Below(Carried(c, req.epoch), req.version)
    ensures PlainBlocks(env, req) <= BlocksUsed(env, c, req)
    ensures (exists f: nat :: f <= env.db.floor && AsPlainAt(env, c, req, f)) <==> GapFree(env, c, req)
  {
    PlainExactlyWithoutGap(env, c, req);
    var s := StartIndex(env.db, req.epoch, req.version);
    if s == 0 {
      DeadTip(env, c, req);
      assert AsPlainAt(env, c, req, env.db.floor);
    } else {
      ForwardCovers(env, c, req, s);
      if GapFree(env, c, req) { ForwardFloor(env, c, req, s); }
    }
  }

  // ---------------------------------------------------------------------------------------------
  // Runs
  // ---------------------------------------------------------------------------------------------

  lemma StillKnown(env: Env, e: nat, p: seq<Entry>, ix: seq<nat>, f: nat, g: nat)
    requires Known(Pruned(env, f), e, p, ix) && f <= g
    ensures Known(Pruned(env, g), e, p, ix)
  {
    var was, now := Pruned(env, f), Pruned(env, g);
    forall j | 0 <= j < |ix|
      ensures KeyOf(now.db, e, p[j], ix[j]) && AgedAt(now, p[j], ix[j])
    {
      assert KeyOf(was.db, e, p[j], ix[j]) && AgedAt(was, p[j], ix[j]);
      var b := now.db.blocks[ix[j]];
      var a: nat :| a <= f && a <= b.last && p[j].price == FinalPrices(Pruned(was, a))(b);
      assert Pruned(was, a) == Pruned(now, a);
    }
    forall j | 0 <= j < |ix| && Bottom(was.db, e, ix[j]) ensures Bottom(now.db, e, ix[j]) {}
  }

  lemma InvRises(env: Env, c: Cache, f: nat, g: nat)
    requires GapInv(Pruned(env, f), c) && f <= g
    ensures GapInv(Pruned(env, g), c)
  {
    if c.prices != [] {
      var ix :| Known(Pruned(env, f), c.lastUpdatedEpoch.value, c.prices, ix);
      StillKnown(env, c.lastUpdatedEpoch.value, c.prices, ix, f, g);
    }
  }

  lemma {:induction false} ArrivalsKeep(env: Env, arrivals: seq<Arrival>, i: nat)
    requires DbOk(env.db) && Computes(env.cfg) && Rising(arrivals) && i < |arrivals|
    ensures GapInv(Pruned(env, arrivals[i].floor), AfterPruned(env, arrivals[..i]))
    ensures ForwardTips(arrivals) ==>
              Below(Carried(AfterPruned(env, arrivals[..i]), arrivals[i].req.epoch), arrivals[i].req.version)
    decreases i
  {
    if i > 0 {
      ArrivalsKeep(env, arrivals, i - 1);
      AfterOneArrival(env, arrivals, i - 1);
      assert Rises(arrivals[i - 1], arrivals[i]);
      assert ForwardTips(arrivals) ==> NotBack(arrivals[i - 1], arrivals[i]);
      OneArrivalKeeps(env, AfterPruned(env, arrivals[..i - 1]), arrivals[i - 1], arrivals[i]);
    }
  }

  lemma OneArrivalKeeps(env: Env, c: Cache, a: Arrival, b: Arrival)
    requires DbOk(env.db) && Computes(env.cfg) && GapInv(Pruned(env, a.floor), c)
    requires a.floor <= a.req.version && Rises(a, b)
    ensures var next := Estimate(Pruned(env, a.floor), c, a.req).0;
            && GapInv(Pruned(env, b.floor), next)
            && (Below(Carried(c, a.req.epoch), a.req.version) && NotBack(a, b) ==>
                  Below(Carried(next, b.req.epoch), b.req.version))
  {
    var next := Estimate(Pruned(env, a.floor), c, a.req).0;
    PrunedIsOk(env.db, a.floor);
    EstimateKeepsGapInv(Pruned(env, a.floor), c, a.req);
    InvRises(env, next, a.floor, b.floor);
    if Below(Carried(c, a.req.epoch), a.req.version) && NotBack(a, b) { BelowNext(env, next, a.req, b.req); }
  }

  /**
   For all runs of requests, with any tips, while old versions are pruned in any way between them: a request uses the
   prices of the blocks it uses, each as it was at some floor when the block was read, and those blocks are the ones
   a plain walk visits at some floor if and only if the entries it falls back on have no gap.
   */
  lemma PrunedRunsRefine(env: Env, arrivals: seq<Arrival>, i: nat)
    requires DbOk(env.db) && Computes(env.cfg) && Rising(arrivals) && i < |arrivals|
    ensures var now, c, req := Pruned(env, arrivals[i].floor), AfterPruned(env, arrivals[..i]), arrivals[i].req;
            && PricedAs(now, BlocksUsed(now, c, req), MergedPrices(now, c, req))
            && ((exists f :: AsPlainAt(now, c, req, f)) <==> GapFree(now, c, req))
  {
    var now, c, req := Pruned(env, arrivals[i].floor), AfterPruned(env, arrivals[..i]), arrivals[i].req;
    ArrivalsKeep(env, arrivals, i);
    PrunedIsOk(env.db, arrivals[i].floor);
    PricesAreThoseOfTheBlocks(now, c, req);
    PlainExactlyWithoutGap(now, c, req);
  }

  /**
   While, besides, tips move forward within an epoch: a request first uses every block that the plain walk over what is
   left visits, and without a gap all it uses is a plain walk at a floor no higher than now.
   */
  lemma ForwardPrunedRunsRefine(env: Env, arrivals: seq<Arrival>, i: nat)
    requires DbOk(env.db) && Computes(env.cfg) && Rising(arrivals) && ForwardTips(arrivals) && i < |arrivals|
    ensures var now, c, req := Pruned(env, arrivals[i].floor), AfterPruned(env, arrivals[..i]), arrivals[i].req;
            && PlainBlocks(now, req) <= BlocksUsed(now, c, req)
            && ((exists f: nat :: f <= arrivals[i].floor && AsPlainAt(now, c, req, f)) <==> GapFree(now, c, req))
  {
    ArrivalsKeep(env, arrivals, i);
    PrunedIsOk(env.db, arrivals[i].floor);
    ForwardExactlyWithoutGap(Pruned(env, arrivals[i].floor), AfterPruned(env, arrivals[..i]), arrivals[i].req);
  }
}
