/**
 Which versions a page of transactions holds (api/src/page.rs; api/src/context.rs: `get_transactions`, `get_block`;
 api/src/transactions.rs: `list`).
 */
module PageWindows {
  import opened Wrappers

  const DEFAULT_PAGE_SIZE: nat := 25
  const MAX_REQUEST_LIMIT: nat := 20000
  const U16_RANGE: nat := 65536

  datatype Page = Page(start: Option<nat>, limit: Option<nat>, maxPageSize: nat)

  datatype Failure = ZeroLimit | StartTooHigh | TooMany | Pruned | NoStartVersion | InTheFuture

  function SaturatingSub(a: nat, b: nat): nat {
    if a < b then 0 else a - b
  }

  function DetermineLimit(requested: Option<nat>, default: nat, max: nat): Result<nat, Failure> {
    var limit := if requested.Some? then requested.value else default;
    if limit == 0 then Err(ZeroLimit) else if limit > max then Ok(max) else Ok(limit)
  }

  function ComputeStart(page: Page, limit: nat, max: nat): Result<nat, Failure> {
    var lastPageStart := SaturatingSub(max, SaturatingSub(limit, 1));
    var start := if page.start.Some? then page.start.value else lastPageStart;
    if start > max then Err(StartTooHigh) else Ok(start)
  }

  /** `n` consecutive versions. */
  function Versions(from: nat, n: nat): (vs: seq<nat>)
    ensures |vs| == n && forall i :: 0 <= i < n ==> vs[i] == from + i
    decreases n
  {
    if n == 0 then [] else [from] + Versions(from + 1, n - 1)
  }

  /** The database refuses large requests and pruned versions; an empty answer has no start version. */
  function GetTransactions(start: nat, limit: nat, ledgerVersion: nat, floor: nat): Result<seq<nat>, Failure> {
    if limit > MAX_REQUEST_LIMIT then Err(TooMany)
    else if start > ledgerVersion || limit == 0 then Err(NoStartVersion)
    else if start < floor then Err(Pruned)
    else Ok(Versions(start, Min(limit, ledgerVersion - start + 1)))
  }

  function ListVersions(page: Page, ledgerVersion: nat, floor: nat): Result<seq<nat>, Failure> {
    match DetermineLimit(page.limit, DEFAULT_PAGE_SIZE, page.maxPageSize)
    case Err(e) => Err(e)
    case Ok(limit) =>
      match ComputeStart(page, limit, ledgerVersion)
      case Err(e) => Err(e)
      case Ok(start) => GetTransactions(start, limit, ledgerVersion, floor)
  }

  /** The newest `n` versions of a ledger, oldest first. */
  ghost predicate Newest(vs: seq<nat>, ledgerVersion: nat, n: nat) {
    && |vs| == n
    && (forall i :: 0 <= i < n ==> vs[i] == ledgerVersion - (n - 1 - i))
    && (forall v :: v in vs <==> ledgerVersion - n < v <= ledgerVersion)
  }

  /**
   Without a start, a page is exactly the newest min(limit, ledger version + 1) versions, and is refused exactly
   when the limit is zero or too large, or the oldest of them is pruned.
   */
  lemma DefaultPageIsNewest(limit: Option<nat>, maxPageSize: nat, ledgerVersion: nat, floor: nat)
    ensures var asked := Min(if limit.Some? then limit.value else DEFAULT_PAGE_SIZE, maxPageSize);
            var n := Min(asked, ledgerVersion + 1);
            var r := ListVersions(Page(None, limit, maxPageSize), ledgerVersion, floor);
            if 0 < asked <= MAX_REQUEST_LIMIT && floor <= ledgerVersion + 1 - n then
              r.Ok? && Newest(r.value, ledgerVersion, n)
            else r.Err?
  {
    var asked := Min(if limit.Some? then limit.value else DEFAULT_PAGE_SIZE, maxPageSize);
    var n := Min(asked, ledgerVersion + 1);
    if 0 < asked <= MAX_REQUEST_LIMIT && floor <= ledgerVersion + 1 - n {
      var vs := Versions(ledgerVersion + 1 - n, n);
      forall v | ledgerVersion - n < v <= ledgerVersion ensures v in vs {
        assert vs[v - (ledgerVersion + 1 - n)] == v;
      }
      assert ListVersions(Page(None, limit, maxPageSize), ledgerVersion, floor) == Ok(vs);
    }
  }

  /** Pages that start where the previous one ended list every version once, up to the ledger's. */
  lemma PagesAdjoin(start: nat, limit: nat, ledgerVersion: nat, floor: nat)
    requires 0 < limit <= MAX_REQUEST_LIMIT && floor <= start && start + limit <= ledgerVersion
    ensures var first := GetTransactions(start, limit, ledgerVersion, floor);
            var next := GetTransactions(start + limit, limit, ledgerVersion, floor);
            && first.Ok? && next.Ok?
            && first.value + next.value == Versions(start, limit + Min(limit, ledgerVersion - (start + limit) + 1))
  {
  }

  /** Lengths are narrowed to sixteen bits before they are compared with the page size. */
  function GetBlock(maxPage: nat, first: nat, last: nat, ledgerVersion: nat, floor: nat): Result<seq<nat>, Failure>
    requires first <= last
  {
    if last > ledgerVersion then Err(InTheFuture)
    else GetTransactions(first, Min(maxPage, (last - first + 1) % U16_RANGE), ledgerVersion, floor)
  }

  /**
   A block request fails exactly when the block is not there yet or pruned, or the narrowed count is zero or too large.
   Otherwise it returns the block's first min(page size, block size) transactions exactly when narrowing does not take
   the size below the page size.
   */
  lemma BlockPageIs(maxPage: nat, first: nat, last: nat, ledgerVersion: nat, floor: nat)
    requires first <= last
    ensures var size := last - first + 1;
            var count := Min(maxPage, size % U16_RANGE);
            var r := GetBlock(maxPage, first, last, ledgerVersion, floor);
            && (r.Err? <==> last > ledgerVersion || first < floor || count == 0 || count > MAX_REQUEST_LIMIT)
            && (r.Ok? ==> r.value == Versions(first, count))
            && (r.Ok? ==> (r.value == Versions(first, Min(maxPage, size)) <==>
                           size < U16_RANGE || size % U16_RANGE >= maxPage))
  {
    var size := last - first + 1;
    var a, b := Min(maxPage, size % U16_RANGE), Min(maxPage, size);
    assert a != b ==> |Versions(first, a)| != |Versions(first, b)|;
  }

  /** A block of exactly 65536 transactions cannot be listed, whatever the page size. */
  lemma FullRangeBlockIsRefused(maxPage: nat, first: nat, ledgerVersion: nat, floor: nat)
    requires first + U16_RANGE - 1 <= ledgerVersion
    ensures GetBlock(maxPage, first, first + U16_RANGE - 1, ledgerVersion, floor) == Err(NoStartVersion)
  {
  }
}
