/**
 Timestamps of rendered transactions (api/src/context.rs: `render_transactions_sequential`,
 `render_transactions_non_sequential`; api/src/transactions.rs: `list`).
 */
module Rendering {
  import opened Wrappers

  datatype Txn = BlockMetadata(time: nat) | BlockMetadataExt(time: nat) | OtherTxn(id: nat) {
    predicate BeginsBlock() {
      BlockMetadata? || BlockMetadataExt?
    }
  }

  /** A new-block event: the version it was emitted at and the block's time. */
  datatype BlockEvent = BlockEvent(version: nat, time: nat)

  /** Transactions by version; versions below `floor` are pruned. */
  datatype Ledger = Ledger(txns: seq<Txn>, events: seq<BlockEvent>, floor: nat)

  datatype OnChain = OnChain(version: nat, txn: Txn)

  type Rendered = nat

  /** The conversion of one transaction, given its block's time; it may fail. */
  type Converter = (nat, OnChain) -> Result<Rendered, ()>

  /** The last new-block event at or before a version. */
  function EventBefore(events: seq<BlockEvent>, v: nat): Option<BlockEvent> {
    if events == [] then None
    else if events[|events| - 1].version <= v then Some(events[|events| - 1])
    else EventBefore(events[..|events| - 1], v)
  }

  function BlockTimestamp(l: Ledger, v: nat): Result<nat, ()> {
    if v < l.floor || v >= |l.txns| then Err(())
    else
      match EventBefore(l.events, v)
      case None => Err(())
      case Some(e) => Ok(e.time)
  }

  /** The transaction at the version of event `i` is its metadata. */
  predicate EventOk(l: Ledger, i: nat)
    requires i < |l.events|
  {
    && l.events[i].version < |l.txns|
    && l.txns[l.events[i].version].BeginsBlock()
    && l.txns[l.events[i].version].time == l.events[i].time
  }

  ghost predicate Announced(l: Ledger, v: nat) {
    exists i :: 0 < i < |l.events| && l.events[i].version == v
  }

  /**
   Genesis emits the first event, at version 0. Every other block begins with its metadata, which carries the time of
   the event emitted at that version, and no other transaction is metadata.
   */
  ghost predicate LedgerOk(l: Ledger) {
    && l.events != [] && l.events[0].version == 0 && Ascending(l.events)
    && (forall i: nat {:trigger EventOk(l, i)} :: 0 < i < |l.events| ==> EventOk(l, i))
    && (forall v: nat {:trigger Announced(l, v)} :: 0 < v < |l.txns| && l.txns[v].BeginsBlock() ==> Announced(l, v))
    && (l.txns != [] ==> !l.txns[0].BeginsBlock())
  }

  /** Consecutive transactions from a version on. */
  function Fetch(l: Ledger, start: nat, n: nat): seq<OnChain>
    requires start + n <= |l.txns|
    decreases n
  {
    if n == 0 then [] else [OnChain(start, l.txns[start])] + Fetch(l, start + 1, n - 1)
  }

  function Prepend(r: Rendered, rest: Result<seq<Rendered>, ()>): Result<seq<Rendered>, ()> {
    match rest
    case Ok(rs) => Ok([r] + rs)
    case Err(e) => Err(e)
  }

  /** The per-version renderer: look every timestamp up. */
  function NonSequential(l: Ledger, convert: Converter, data: seq<OnChain>): Result<seq<Rendered>, ()> {
    if data == [] then Ok([])
    else
      match BlockTimestamp(l, data[0].version)
      case Err(e) => Err(e)
      case Ok(time) =>
        match convert(time, data[0])
        case Err(e) => Err(e)
        case Ok(r) => Prepend(r, NonSequential(l, convert, data[1..]))
  }

  /** The timestamp in force after a transaction has been seen. */
  function Threaded(timestamp: nat, t: Txn): nat {
    if t.BeginsBlock() then t.time else timestamp
  }

  function Sequential(convert: Converter, data: seq<OnChain>, timestamp: nat): Result<seq<Rendered>, ()> {
    if data == [] then Ok([])
    else
      match convert(Threaded(timestamp, data[0].txn), data[0])
      case Err(e) => Err(e)
      case Ok(r) => Prepend(r, Sequential(convert, data[1..], Threaded(timestamp, data[0].txn)))
  }

  lemma PrependJoin(a: seq<Rendered>, r: Rendered, rest: Result<seq<Rendered>, ()>)
    ensures Joined(a + [r], rest) == Joined(a, Prepend(r, rest))
  {
    if rest.Ok? { assert a + [r] + rest.value == a + ([r] + rest.value); }
  }

  lemma JoinNothing(rest: Result<seq<Rendered>, ()>)
    ensures Joined([], rest) == rest
  {
    if rest.Ok? { assert [] + rest.value == rest.value; }
  }

  function Joined(a: seq<Rendered>, rest: Result<seq<Rendered>, ()>): Result<seq<Rendered>, ()> {
    match rest
    case Ok(rs) => Ok(a + rs)
    case Err(e) => Err(e)
  }

  /** The loop that threads one timestamp forward. */
  method RenderTransactionsSequential(convert: Converter, data: seq<OnChain>, start: nat)
    returns (r: Result<seq<Rendered>, ()>)
    ensures r == Sequential(convert, data, start)
  {
    var timestamp := start;
    var txns: seq<Rendered> := [];
    assert data[0..] == data;
    JoinNothing(Sequential(convert, data, start));
    for i := 0 to |data|
      invariant Sequential(convert, data, start) == Joined(txns, Sequential(convert, data[i..], timestamp))
    {
      var t := data[i];
      assert data[i..][1..] == data[i + 1..];
      if t.txn.BlockMetadataExt? {
        timestamp := t.txn.time;
      } else if t.txn.BlockMetadata? {
        timestamp := t.txn.time;
      }
      var txn := convert(timestamp, t);
      if txn.Err? {
        return Err(txn.error);
      }
      PrependJoin(txns, txn.value, Sequential(convert, data[i + 1..], timestamp));
      txns := txns + [txn.value];
    }
    assert data[|data|..] == [] && txns + [] == txns;
    return Ok(txns);
  }

  /** Listing looks up the timestamp of the first version and renders sequentially from there. */
  function List(l: Ledger, convert: Converter, start: nat, data: seq<OnChain>): Result<seq<Rendered>, ()> {
    match BlockTimestamp(l, start)
    case Err(e) => Err(e)
    case Ok(time) => Sequential(convert, data, time)
  }

  // ---------------------------------------------------------------------------------------------
  // The two renderers agree
  // ---------------------------------------------------------------------------------------------

  ghost predicate Ascending(events: seq<BlockEvent>) {
    forall a, b :: 0 <= a < b < |events| ==> events[a].version < events[b].version
  }

  /** Event `i` is the last one at or before `v`. */
  predicate InForce(events: seq<BlockEvent>, v: nat, i: nat) {
    i < |events| && events[i].version <= v && (i + 1 < |events| ==> v < events[i + 1].version)
  }

  lemma {:induction false} EventBeforeIs(events: seq<BlockEvent>, v: nat, i: nat)
    requires Ascending(events) && InForce(events, v, i)
    ensures EventBefore(events, v) == Some(events[i])
  {
    var n := |events| - 1;
    if i < n {
      assert v < events[i + 1].version <= events[n].version;
      EventBeforeIs(events[..n], v, i);
    }
  }

  lemma {:induction false} EventExists(events: seq<BlockEvent>, v: nat)
    requires events != [] && events[0].version <= v
    ensures exists i: nat :: InForce(events, v, i)
  {
    var n := |events| - 1;
    if events[n].version <= v {
      assert InForce(events, v, n);
    } else {
      EventExists(events[..n], v);
      var i: nat :| InForce(events[..n], v, i);
      assert InForce(events, v, i);
    }
  }

  lemma EventSteps(l: Ledger, v: nat, i: nat)
    requires LedgerOk(l) && v + 1 < |l.txns| && InForce(l.events, v, i)
    ensures if l.txns[v + 1].BeginsBlock() then InForce(l.events, v + 1, i + 1) && l.events[i + 1].version == v + 1
            else InForce(l.events, v + 1, i)
  {
    if l.txns[v + 1].BeginsBlock() {
      assert Announced(l, v + 1);
      var j :| 0 < j < |l.events| && l.events[j].version == v + 1;
      assert !(j <= i) && !(i + 1 < j);
    } else if i + 1 < |l.events| {
      assert EventOk(l, i + 1);
    }
  }

  /** From one version to the next the looked-up timestamp changes exactly as the threaded one. */
  lemma TimestampSteps(l: Ledger, v: nat)
    requires LedgerOk(l) && v + 1 < |l.txns| && l.floor <= v
    ensures BlockTimestamp(l, v).Ok?
    ensures BlockTimestamp(l, v + 1) == Ok(Threaded(BlockTimestamp(l, v).value, l.txns[v + 1]))
  {
    EventExists(l.events, v);
    var i: nat :| InForce(l.events, v, i);
    EventBeforeIs(l.events, v, i);
    EventSteps(l, v, i);
    if l.txns[v + 1].BeginsBlock() {
      EventBeforeIs(l.events, v + 1, i + 1);
      assert EventOk(l, i + 1);
    } else {
      EventBeforeIs(l.events, v + 1, i);
    }
  }

  lemma TimestampAtStart(l: Ledger, v: nat)
    requires LedgerOk(l) && v < |l.txns| && l.floor <= v
    ensures BlockTimestamp(l, v).Ok?
    ensures Threaded(BlockTimestamp(l, v).value, l.txns[v]) == BlockTimestamp(l, v).value
  {
    EventExists(l.events, v);
    var i: nat :| InForce(l.events, v, i);
    EventBeforeIs(l.events, v, i);
    if l.txns[v].BeginsBlock() {
      assert Announced(l, v);
      var j: nat :| 0 < j < |l.events| && l.events[j].version == v;
      assert i == j && EventOk(l, j);
    }
  }

  lemma {:induction false} ThreadedIsLookedUp(l: Ledger, convert: Converter, start: nat, n: nat, timestamp: nat)
    requires LedgerOk(l) && start + n <= |l.txns| && l.floor <= start
    requires n > 0 ==> BlockTimestamp(l, start) == Ok(Threaded(timestamp, l.txns[start]))
    ensures Sequential(convert, Fetch(l, start, n), timestamp) == NonSequential(l, convert, Fetch(l, start, n))
    decreases n
  {
    if n > 0 {
      var data := Fetch(l, start, n);
      assert data[0] == OnChain(start, l.txns[start]) && data[1..] == Fetch(l, start + 1, n - 1);
      if n > 1 { TimestampSteps(l, start); }
      ThreadedIsLookedUp(l, convert, start + 1, n - 1, Threaded(timestamp, l.txns[start]));
    }
  }

  /** For every stretch of versions, wherever in a block it starts, both renderers give the same answer. */
  lemma RenderersAgree(l: Ledger, convert: Converter, start: nat, n: nat)
    requires LedgerOk(l) && start + n <= |l.txns| && n > 0
    ensures List(l, convert, start, Fetch(l, start, n)) == NonSequential(l, convert, Fetch(l, start, n))
  {
    if l.floor <= start {
      TimestampAtStart(l, start);
      ThreadedIsLookedUp(l, convert, start, n, BlockTimestamp(l, start).value);
    } else {
      assert Fetch(l, start, n)[0].version == start;
    }
  }

  // ---------------------------------------------------------------------------------------------
  // What both of them answer
  // ---------------------------------------------------------------------------------------------

  /** The time of the block a version lies in: its own if it is metadata, otherwise that of the version before. */
  function TimeAt(l: Ledger, v: nat): nat
    requires v < |l.txns| && l.events != []
  {
    if v == 0 then l.events[0].time
    else
      match l.txns[v]
      case BlockMetadata(time) => time
      case BlockMetadataExt(time) => time
      case OtherTxn(_) => TimeAt(l, v - 1)
  }

  lemma {:induction false} InForceTime(l: Ledger, v: nat, i: nat)
    requires LedgerOk(l) && v < |l.txns| && InForce(l.events, v, i)
    ensures l.events[i].time == TimeAt(l, v)
    decreases v
  {
    if v > 0 {
      EventExists(l.events, v - 1);
      var j: nat :| InForce(l.events, v - 1, j);
      InForceTime(l, v - 1, j);
      EventSteps(l, v - 1, j);
      if l.txns[v].BeginsBlock() { assert EventOk(l, j + 1); }
    }
  }

  /** A lookup fails exactly outside the versions held, and otherwise gives the time of the version's block. */
  lemma LookedUpIs(l: Ledger, v: nat)
    requires LedgerOk(l)
    ensures BlockTimestamp(l, v) == if l.floor <= v < |l.txns| then Ok(TimeAt(l, v)) else Err(())
  {
    if l.floor <= v < |l.txns| {
      EventExists(l.events, v);
      var i: nat :| InForce(l.events, v, i);
      EventBeforeIs(l.events, v, i);
      InForceTime(l, v, i);
    }
  }

  /** Transaction `v`, converted with its block's time. */
  function Converted(l: Ledger, convert: Converter, v: nat): Result<Rendered, ()>
    requires v < |l.txns| && l.events != []
  {
    convert(TimeAt(l, v), OnChain(v, l.txns[v]))
  }

  /** `r` holds the conversions of the versions from `start` on; it fails exactly if one of them does. */
  ghost predicate Renders(l: Ledger, convert: Converter, start: nat, n: nat, r: Result<seq<Rendered>, ()>)
    requires start + n <= |l.txns| && l.events != []
  {
    && (r.Ok? <==> forall v: nat :: start <= v < start + n ==> Converted(l, convert, v).Ok?)
    && (r.Ok? ==>
          && |r.value| == n
          && forall v: nat :: start <= v < start + n ==> Converted(l, convert, v) == Ok(r.value[v - start]))
  }

  lemma {:induction false} NonSequentialRenders(l: Ledger, convert: Converter, start: nat, n: nat)
    requires LedgerOk(l) && start + n <= |l.txns| && l.floor <= start
    ensures Renders(l, convert, start, n, NonSequential(l, convert, Fetch(l, start, n)))
    decreases n
  {
    if n > 0 {
      var data := Fetch(l, start, n);
      assert data[0] == OnChain(start, l.txns[start]) && data[1..] == Fetch(l, start + 1, n - 1);
      LookedUpIs(l, start);
      assert Converted(l, convert, start) == convert(BlockTimestamp(l, start).value, data[0]);
      NonSequentialRenders(l, convert, start + 1, n - 1);
    }
  }

  /**
   A listing from a version still held gives every transaction converted with the time of its own block, wherever in a
   block it starts; one from a pruned version fails.
   */
  lemma ListRenders(l: Ledger, convert: Converter, start: nat, n: nat)
    requires LedgerOk(l) && start + n <= |l.txns| && n > 0
    ensures l.floor <= start ==> Renders(l, convert, start, n, List(l, convert, start, Fetch(l, start, n)))
    ensures start < l.floor ==> List(l, convert, start, Fetch(l, start, n)) == Err(())
  {
    if l.floor <= start {
      RenderersAgree(l, convert, start, n);
      NonSequentialRenders(l, convert, start, n);
    }
  }
}
