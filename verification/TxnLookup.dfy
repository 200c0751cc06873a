/**
 Looking a transaction up by hash while it is being committed, and waiting for it
 (api/src/transactions.rs: `get_by_hash`, `wait_transaction_by_hash_inner`).

 The storage version is read first, then mempool is asked, then the database at that version. The steps of the
 lookup fall at increasing moments of the transaction's life.
 */
module TxnLookup {
  import opened Wrappers

  /** The ledger and one transaction at a moment. */
  datatype Moment = Moment(version: nat, inMempool: bool, committedAt: Option<nat>)

  /** A commit makes the transaction visible at its version. */
  ghost predicate MomentOk(m: Moment) {
    && (m.committedAt.Some? ==> m.committedAt.value <= m.version)
    && (m.inMempool || m.committedAt.Some?)
  }

  predicate Commits(m: Moment, n: Moment) {
    m.committedAt.None? && n.committedAt.Some?
  }

  predicate Removes(m: Moment, n: Moment) {
    m.inMempool && !n.inMempool
  }

  /** The ledger grows; a commit is above what could be read before; removal follows commit; neither is undone. */
  ghost predicate Life(m: Moment, n: Moment) {
    && m.version <= n.version
    && (m.committedAt.Some? ==> n.committedAt == m.committedAt)
    && (Commits(m, n) ==> n.committedAt.value > m.version)
    && (Removes(m, n) ==> m.committedAt.Some? || n.committedAt.Some?)
    && (n.inMempool ==> m.inMempool)
  }

  /** A transaction known to the node: in mempool until committed. */
  ghost predicate History(ms: seq<Moment>) {
    && (forall i :: 0 <= i < |ms| ==> MomentOk(ms[i]))
    && (forall i {:trigger ms[i]} :: 0 < i < |ms| ==> Life(ms[i - 1], ms[i]))
  }

  datatype Lookup = Pending | OnChain(version: nat) | Missing

  /** The database answers for transactions at or below the given version. */
  function InDb(m: Moment, version: nat): Lookup {
    if m.committedAt.Some? && m.committedAt.value <= version then OnChain(m.committedAt.value) else Missing
  }

  /** Version read at `a`, mempool asked at `b`, database read at `c`. */
  function GetByHash(ms: seq<Moment>, a: nat, b: nat, c: nat): Lookup
    requires a <= b <= c < |ms|
  {
    if ms[b].inMempool then Pending else InDb(ms[c], ms[a].version)
  }

  lemma {:induction false} LaterKeeps(ms: seq<Moment>, a: nat, b: nat)
    requires History(ms) && a <= b < |ms|
    ensures ms[a].version <= ms[b].version
    ensures ms[a].committedAt.Some? ==> ms[b].committedAt == ms[a].committedAt
    ensures ms[a].committedAt.None? && ms[b].committedAt.Some? ==> ms[b].committedAt.value > ms[a].version
    ensures ms[b].inMempool ==> ms[a].inMempool
    decreases b - a
  {
    if a < b {
      LaterKeeps(ms, a, b - 1);
      assert Life(ms[b - 1], ms[b]);
    }
  }

  ghost predicate CommitAt(ms: seq<Moment>, i: nat) {
    0 < i < |ms| && Commits(ms[i - 1], ms[i])
  }

  ghost predicate RemovalAt(ms: seq<Moment>, i: nat) {
    0 < i < |ms| && Removes(ms[i - 1], ms[i])
  }

  /** The commit falls after `a` and by `b`. */
  ghost predicate CommitIn(ms: seq<Moment>, a: nat, b: nat) {
    exists i: nat :: a < i <= b && CommitAt(ms, i)
  }

  ghost predicate RemovalIn(ms: seq<Moment>, a: nat, b: nat) {
    exists i: nat :: a < i <= b && RemovalAt(ms, i)
  }

  lemma {:induction false} CommitHappens(ms: seq<Moment>, a: nat, b: nat)
    requires History(ms) && a <= b < |ms| && ms[a].committedAt.None? && ms[b].committedAt.Some?
    ensures CommitIn(ms, a, b)
    decreases b - a
  {
    if ms[b - 1].committedAt.None? {
      assert CommitAt(ms, b);
    } else {
      CommitHappens(ms, a, b - 1);
    }
  }

  lemma CommitShows(ms: seq<Moment>, a: nat, b: nat)
    requires History(ms) && a <= b < |ms| && CommitIn(ms, a, b)
    ensures ms[a].committedAt.None? && ms[b].committedAt.Some?
  {
    var i: nat :| a < i <= b && CommitAt(ms, i);
    LaterKeeps(ms, a, i - 1);
    LaterKeeps(ms, i, b);
  }

  lemma {:induction false} RemovalHappens(ms: seq<Moment>, a: nat, b: nat)
    requires History(ms) && a <= b < |ms| && ms[a].inMempool && !ms[b].inMempool
    ensures RemovalIn(ms, a, b)
    decreases b - a
  {
    if ms[b - 1].inMempool {
      assert RemovalAt(ms, b);
    } else {
      RemovalHappens(ms, a, b - 1);
    }
  }

  lemma RemovalShows(ms: seq<Moment>, a: nat, b: nat)
    requires History(ms) && a <= b < |ms| && RemovalIn(ms, a, b)
    ensures ms[a].inMempool && !ms[b].inMempool
  {
    var i: nat :| a < i <= b && RemovalAt(ms, i);
    LaterKeeps(ms, a, i - 1);
    LaterKeeps(ms, i, b);
  }

  /**
   A known transaction is reported missing exactly when it was committed after the version was read and removed from
   mempool before mempool was asked.
   */
  lemma MissingExactlyInTheGap(ms: seq<Moment>, a: nat, b: nat, c: nat)
    requires History(ms) && a <= b <= c < |ms|
    ensures GetByHash(ms, a, b, c) == Missing <==> CommitIn(ms, a, b) && RemovalIn(ms, a, b)
  {
    LaterKeeps(ms, a, b);
    LaterKeeps(ms, b, c);
    LaterKeeps(ms, a, c);
    assert MomentOk(ms[a]) && MomentOk(ms[b]);
    if GetByHash(ms, a, b, c) == Missing {
      CommitHappens(ms, a, b);
      RemovalHappens(ms, a, b);
    }
    if CommitIn(ms, a, b) && RemovalIn(ms, a, b) {
      CommitShows(ms, a, b);
      RemovalShows(ms, a, b);
    }
  }

  /** A transaction committed by the version read, and one in mempool when asked, is found. */
  lemma FoundOtherwise(ms: seq<Moment>, a: nat, b: nat, c: nat)
    requires History(ms) && a <= b <= c < |ms|
    ensures ms[b].inMempool ==> GetByHash(ms, a, b, c) == Pending
    ensures !ms[b].inMempool && ms[a].committedAt.Some? ==> GetByHash(ms, a, b, c) == OnChain(ms[a].committedAt.value)
  {
    LaterKeeps(ms, a, c);
    assert MomentOk(ms[a]);
  }

  // ---------------------------------------------------------------------------------------------
  // Waiting
  // ---------------------------------------------------------------------------------------------

  /** The poll at which waiting ends: not pending any more, or out of time. */
  predicate Ends(polls: nat -> Lookup, elapsed: nat -> nat, timeout: nat, i: nat) {
    !polls(i).Pending? || elapsed(i) >= timeout
  }

  /**
   `elapsed(i)` is the time since the start when poll `i` has been answered. Polls may fall on the same reading of the
   clock; all that is asked of it is that the timeout has passed by some poll, here `late`.
   */
  method WaitTransactionByHash(polls: nat -> Lookup, elapsed: nat -> nat, timeout: nat, ghost late: nat)
    returns (r: Lookup, last: nat)
    requires elapsed(late) >= timeout
    ensures r == polls(last) && Ends(polls, elapsed, timeout, last)
    ensures forall i: nat :: i < last ==> polls(i).Pending? && elapsed(i) < timeout
    ensures last <= late
  {
    last := 0;
    while true
      invariant forall i: nat :: i < last ==> polls(i).Pending? && elapsed(i) < timeout
      invariant last <= late
      decreases late - last
    {
      if polls(last).Pending? && elapsed(last) < timeout {
        last := last + 1;
      } else {
        return polls(last), last;
      }
    }
  }
}
