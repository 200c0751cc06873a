/**
 Cursor pagination over the state of an account (api/src/context.rs: `get_modules_by_pagination`,
 `get_resources_by_pagination`).

 The state is a list of entries in key order. A page reads on from a cursor key, keeps what the view shows, and
 rebuilds the cursor from the path of the first entry it does not return.
 */
module Pagination {
  import opened Wrappers

  type Key = nat
  type Tag = nat

  /** `Broken` stands for a key that does not parse, or an entry that cannot be read. */
  datatype Path = Code(id: Tag) | Resource(tag: Tag) | Group(tag: Tag) | Broken

  /** `members` are the resources an entry stands for; None for a resource group that does not decode. */
  datatype Entry = Entry(key: Key, path: Path, members: Option<seq<nat>>)

  /** How paths are encoded as keys of the account, and the length of an encoded name. */
  datatype Keys = Keys(code: Tag -> Key, resource: Tag -> Key, group: Tag -> Key, size: Tag -> nat)

  type View = Path -> bool
  type Cursor = Path -> Key

  ghost predicate Ordered(es: seq<Entry>) {
    forall i, j :: 0 <= i < j < |es| ==> es[i].key < es[j].key
  }

  ghost predicate Encoded(keys: Keys, es: seq<Entry>) {
    forall i :: 0 <= i < |es| ==>
      match es[i].path
      case Code(id) => es[i].key == keys.code(id)
      case Resource(tag) => es[i].key == keys.resource(tag)
      case Group(tag) => es[i].key == keys.group(tag)
      case Broken => true
  }

  /** The iterator starts at the first key that is not below the cursor. */
  function Start(es: seq<Entry>, from: Option<Key>, k: nat): (s: nat)
    requires k <= |es|
    ensures k <= s <= |es|
    decreases |es| - k
  {
    if k == |es| || from.None? || es[k].key >= from.value then k else Start(es, from, k + 1)
  }

  function Visible(es: seq<Entry>, view: View, k: nat): seq<Entry>
    requires k <= |es|
    decreases |es| - k
  {
    if k == |es| then [] else (if view(es[k].path) then [es[k]] else []) + Visible(es, view, k + 1)
  }

  /** What a scan from the cursor shows. */
  function Items(es: seq<Entry>, view: View, from: Option<Key>): seq<Entry> {
    Visible(es, view, Start(es, from, 0))
  }

  predicate Parses(es: seq<Entry>) {
    forall i :: 0 <= i < |es| ==> !es[i].path.Broken?
  }

  /** The entries of one page and the next cursor. */
  function Page(es: seq<Entry>, view: View, cursor: Cursor, from: Option<Key>, limit: nat)
    : Result<(seq<Entry>, Option<Key>), ()>
  {
    var items := Items(es, view, from);
    var page := items[..Min(limit, |items|)];
    if !Parses(page) then Err(())
    else if |items| <= limit then Ok((page, None))
    else if items[limit].path.Broken? then Err(())
    else Ok((page, Some(cursor(items[limit].path))))
  }

  /** Following the cursors for up to `n` pages. */
  datatype Outcome = Done(items: seq<Entry>) | More(items: seq<Entry>) | Failed

  function Before(page: seq<Entry>, o: Outcome): Outcome {
    match o
    case Done(items) => Done(page + items)
    case More(items) => More(page + items)
    case Failed => Failed
  }

  function Follow(es: seq<Entry>, view: View, cursor: Cursor, from: Option<Key>, limits: nat -> nat, i: nat, n: nat)
    : Outcome
    decreases n
  {
    if n == 0 then More([])
    else
      match Page(es, view, cursor, from, limits(i))
      case Err(_) => Failed
      case Ok((page, None)) => Done(page)
      case Ok((page, Some(next))) => Before(page, Follow(es, view, cursor, Some(next), limits, i + 1, n - 1))
  }

  // ---------------------------------------------------------------------------------------------
  // Where a cursor lands
  // ---------------------------------------------------------------------------------------------

  /** The cursor for `e` lies at or below it, with nothing visible in between. */
  ghost predicate Lands(es: seq<Entry>, view: View, cursor: Cursor, e: Entry) {
    && cursor(e.path) <= e.key
    && forall i :: 0 <= i < |es| && view(es[i].path) ==> es[i].key < cursor(e.path) || e.key <= es[i].key
  }

  lemma {:induction false} StartIs(es: seq<Entry>, c: Key, k: nat)
    requires Ordered(es) && k <= |es|
    ensures var s := Start(es, Some(c), k);
            && (forall i :: k <= i < s ==> es[i].key < c)
            && (forall i :: s <= i < |es| ==> es[i].key >= c)
    decreases |es| - k
  {
    if k < |es| && es[k].key < c { StartIs(es, c, k + 1); }
  }

  lemma {:induction false} SkipInvisible(es: seq<Entry>, view: View, s: nat, k: nat)
    requires s <= k <= |es| && forall i :: s <= i < k ==> !view(es[i].path)
    ensures Visible(es, view, s) == Visible(es, view, k)
    decreases k - s
  {
    if s < k { SkipInvisible(es, view, s + 1, k); }
  }

  /** The rest of `items` is what shows from index `k` on. */
  ghost predicate PlacedAt(es: seq<Entry>, view: View, items: seq<Entry>, j: nat, k: nat)
    requires j < |items|
  {
    k < |es| && es[k] == items[j] && view(es[k].path) && Visible(es, view, k) == items[j..]
  }

  lemma PlacedInTail(es: seq<Entry>, view: View, items: seq<Entry>, head: Entry, rest: seq<Entry>, j: nat, k: nat)
    requires items == [head] + rest && j < |rest| && PlacedAt(es, view, rest, j, k)
    ensures PlacedAt(es, view, items, j + 1, k)
  {
    assert items[j + 1..] == rest[j..];
  }

  lemma {:induction false} ItemPlace(es: seq<Entry>, view: View, s: nat, j: nat)
    requires s <= |es| && j < |Visible(es, view, s)|
    ensures exists k: nat :: s <= k && PlacedAt(es, view, Visible(es, view, s), j, k)
    decreases |es| - s
  {
    var items := Visible(es, view, s);
    if view(es[s].path) && j == 0 {
      assert items[0..] == items;
      assert PlacedAt(es, view, items, 0, s);
    } else {
      var rest, j' := Visible(es, view, s + 1), if view(es[s].path) then j - 1 else j;
      ItemPlace(es, view, s + 1, j');
      var k: nat :| s + 1 <= k && PlacedAt(es, view, rest, j', k);
      if view(es[s].path) { PlacedInTail(es, view, items, es[s], rest, j', k); }
      assert PlacedAt(es, view, items, j, k);
    }
  }

  lemma {:induction false} FirstIsEarly(es: seq<Entry>, view: View, s: nat, i: nat)
    requires s <= i < |es| && view(es[i].path)
    ensures Visible(es, view, s) != [] && exists m :: s <= m <= i && es[m] == Visible(es, view, s)[0]
    decreases i - s
  {
    if view(es[s].path) {
      assert es[s] == Visible(es, view, s)[0];
    } else {
      FirstIsEarly(es, view, s + 1, i);
    }
  }

  /** A cursor that lands continues exactly with the entry it was made for. */
  lemma LandingContinues(es: seq<Entry>, view: View, cursor: Cursor, k: nat)
    requires Ordered(es) && k < |es| && Lands(es, view, cursor, es[k])
    ensures Items(es, view, Some(cursor(es[k].path))) == Visible(es, view, k)
  {
    var c := cursor(es[k].path);
    StartIs(es, c, 0);
    SkipInvisible(es, view, Start(es, Some(c), 0), k);
  }

  /** A cursor that does not land continues with another entry, or with none. */
  lemma MissingStartsElsewhere(es: seq<Entry>, view: View, cursor: Cursor, k: nat)
    requires Ordered(es) && k < |es| && view(es[k].path) && !Lands(es, view, cursor, es[k])
    ensures var items := Items(es, view, Some(cursor(es[k].path)));
            items == [] || items[0] != es[k]
  {
    var c := cursor(es[k].path);
    var s := Start(es, Some(c), 0);
    var items := Items(es, view, Some(c));
    StartIs(es, c, 0);
    if c > es[k].key {
      if items != [] {
        ItemPlace(es, view, s, 0);
        var m: nat :| s <= m && PlacedAt(es, view, items, 0, m);
        assert es[m].key >= c;
      }
    } else {
      var i :| 0 <= i < |es| && view(es[i].path) && c <= es[i].key < es[k].key;
      assert s <= i < k;
      FirstIsEarly(es, view, s, i);
    }
  }

  // ---------------------------------------------------------------------------------------------
  // Whole scans
  // ---------------------------------------------------------------------------------------------

  /** Every cursor that the pages of `items` would use lands, up to an entry that cannot be read. */
  ghost predicate CursorsLand(es: seq<Entry>, view: View, cursor: Cursor, items: seq<Entry>, limits: nat -> nat, i: nat)
    decreases |items|
  {
    limits(i) == 0 || |items| <= limits(i) || !Parses(items[..limits(i) + 1]) ||
    (Lands(es, view, cursor, items[limits(i)]) && CursorsLand(es, view, cursor, items[limits(i)..], limits, i + 1))
  }

  lemma CursorsStep(es: seq<Entry>, view: View, cursor: Cursor, items: seq<Entry>, limits: nat -> nat, i: nat,
                    rest: seq<Entry>)
    requires 0 < limits(i) < |items| && rest == items[limits(i)..] && Parses(items[..limits(i) + 1])
    ensures CursorsLand(es, view, cursor, items, limits, i) <==>
            Lands(es, view, cursor, items[limits(i)]) && CursorsLand(es, view, cursor, rest, limits, i + 1)
  {
  }

  lemma NextItems(es: seq<Entry>, view: View, cursor: Cursor, from: Option<Key>, limit: nat)
    requires Ordered(es) && limit < |Items(es, view, from)|
    ensures var items := Items(es, view, from);
            var next := Items(es, view, Some(cursor(items[limit].path)));
            if Lands(es, view, cursor, items[limit]) then next == items[limit..]
            else next == [] || next[0] != items[limit]
  {
    var items := Items(es, view, from);
    ItemPlace(es, view, Start(es, from, 0), limit);
    var k: nat :| Start(es, from, 0) <= k && PlacedAt(es, view, items, limit, k);
    if Lands(es, view, cursor, es[k]) {
      LandingContinues(es, view, cursor, k);
    } else {
      MissingStartsElsewhere(es, view, cursor, k);
    }
  }

  /** What following yields begins with what the first scan shows. */
  lemma FollowStartsWith(es: seq<Entry>, view: View, cursor: Cursor, from: Option<Key>, limits: nat -> nat, i: nat,
                         n: nat)
    requires limits(i) > 0
    ensures var o := Follow(es, view, cursor, from, limits, i, n);
            var items := Items(es, view, from);
            o.Done? ==> if items == [] then o.items == [] else o.items != [] && o.items[0] == items[0]
  {
  }

  /** One page of readable entries, and the rest. */
  lemma FollowStep(es: seq<Entry>, view: View, cursor: Cursor, from: Option<Key>, limits: nat -> nat, i: nat, n: nat)
    requires Parses(Items(es, view, from)) && n > 0
    ensures var items, limit, o := Items(es, view, from), limits(i), Follow(es, view, cursor, from, limits, i, n);
            if |items| <= limit then o == Done(items)
            else o == Before(items[..limit],
                             Follow(es, view, cursor, Some(cursor(items[limit].path)), limits, i + 1, n - 1))
  {
    var items := Items(es, view, from);
    assert items[..|items|] == items;
  }

  lemma LandedStep(es: seq<Entry>, view: View, cursor: Cursor, from: Option<Key>, limits: nat -> nat, i: nat, n: nat,
                   items: seq<Entry>, next: Option<Key>)
    requires Ordered(es) && items == Items(es, view, from) && Parses(items) && n > 0 && limits(i) < |items|
    requires next == Some(cursor(items[limits(i)].path)) && Lands(es, view, cursor, items[limits(i)])
    ensures Items(es, view, next) == items[limits(i)..]
    ensures Follow(es, view, cursor, from, limits, i, n) == Done(items) <==>
            Follow(es, view, cursor, next, limits, i + 1, n - 1) == Done(items[limits(i)..])
  {
    FollowStep(es, view, cursor, from, limits, i, n);
    NextItems(es, view, cursor, from, limits(i));
    PrefixOnBoth(items, limits(i), Follow(es, view, cursor, next, limits, i + 1, n - 1));
  }

  lemma MissedStep(es: seq<Entry>, view: View, cursor: Cursor, from: Option<Key>, limits: nat -> nat, i: nat, n: nat,
                   items: seq<Entry>, next: Option<Key>)
    requires Ordered(es) && items == Items(es, view, from) && Parses(items) && n > 0 && limits(i) < |items|
    requires next == Some(cursor(items[limits(i)].path)) && !Lands(es, view, cursor, items[limits(i)])
    requires limits(i + 1) > 0
    ensures Follow(es, view, cursor, from, limits, i, n) != Done(items)
  {
    FollowStep(es, view, cursor, from, limits, i, n);
    NextItems(es, view, cursor, from, limits(i));
    FollowStartsWith(es, view, cursor, next, limits, i + 1, n - 1);
    PrefixOnBoth(items, limits(i), Follow(es, view, cursor, next, limits, i + 1, n - 1));
  }

  lemma ParsesParts(items: seq<Entry>, limit: nat)
    requires Parses(items) && limit < |items|
    ensures Parses(items[..limit + 1]) && Parses(items[limit..])
  {
  }

  lemma {:induction false} ScanOutcome(es: seq<Entry>, view: View, cursor: Cursor, from: Option<Key>,
                                       limits: nat -> nat, i: nat, n: nat, items: seq<Entry>, o: Outcome)
    requires Ordered(es) && (forall k :: limits(k) > 0)
    requires items == Items(es, view, from) && Parses(items) && n > 0 && n >= |items|
    requires o == Follow(es, view, cursor, from, limits, i, n)
    ensures o == Done(items) <==> CursorsLand(es, view, cursor, items, limits, i)
    decreases n
  {
    var limit := limits(i);
    if |items| <= limit {
      FollowStep(es, view, cursor, from, limits, i, n);
    } else {
      var next, rest := Some(cursor(items[limit].path)), items[limit..];
      ParsesParts(items, limit);
      CursorsStep(es, view, cursor, items, limits, i, rest);
      if Lands(es, view, cursor, items[limit]) {
        LandedStep(es, view, cursor, from, limits, i, n, items, next);
        ScanOutcome(es, view, cursor, next, limits, i + 1, n - 1, rest,
                    Follow(es, view, cursor, next, limits, i + 1, n - 1));
      } else {
        MissedStep(es, view, cursor, from, limits, i, n, items, next);
      }
    }
  }

  /**
   With readable entries and limits of at least one, following the cursors returns the whole scan, each entry once,
   exactly when every cursor lands; as many pages as entries are enough.
   */
  lemma PagesAreTheScan(es: seq<Entry>, view: View, cursor: Cursor, from: Option<Key>, limits: nat -> nat, i: nat,
                        n: nat)
    requires Ordered(es) && (forall k :: limits(k) > 0)
    requires Parses(Items(es, view, from)) && n > 0 && n >= |Items(es, view, from)|
    ensures Follow(es, view, cursor, from, limits, i, n) == Done(Items(es, view, from)) <==>
            CursorsLand(es, view, cursor, Items(es, view, from), limits, i)
  {
    ScanOutcome(es, view, cursor, from, limits, i, n, Items(es, view, from),
                Follow(es, view, cursor, from, limits, i, n));
  }

  lemma PrefixOnBoth(items: seq<Entry>, limit: nat, o: Outcome)
    requires limit < |items|
    ensures Before(items[..limit], o) == Done(items) <==> o == Done(items[limit..])
  {
    assert items == items[..limit] + items[limit..];
    if o.Done? && items[..limit] + o.items == items {
      assert (items[..limit] + o.items)[limit..] == o.items;
    }
  }

  ghost predicate AlwaysLands(es: seq<Entry>, view: View, cursor: Cursor) {
    forall i :: 0 <= i < |es| && view(es[i].path) && !es[i].path.Broken? ==> Lands(es, view, cursor, es[i])
  }

  lemma {:induction false} AllCursorsLand(es: seq<Entry>, view: View, cursor: Cursor, s: nat, items: seq<Entry>,
                                          limits: nat -> nat, i: nat)
    requires AlwaysLands(es, view, cursor) && s <= |es| && items == Visible(es, view, s)
    ensures CursorsLand(es, view, cursor, items, limits, i)
    decreases |items|
  {
    var limit := limits(i);
    if 0 < limit < |items| && Parses(items[..limit + 1]) {
      assert items[..limit + 1][limit] == items[limit];
      ItemPlace(es, view, s, limit);
      var k: nat :| s <= k && PlacedAt(es, view, items, limit, k);
      AllCursorsLand(es, view, cursor, k, items[limit..], limits, i + 1);
    }
  }

  lemma ParsesJoin(items: seq<Entry>, limit: nat)
    requires limit < |items| && Parses(items[..limit]) && Parses(items[limit..])
    ensures Parses(items)
  {
    forall j | 0 <= j < |items| ensures !items[j].path.Broken? {
      assert items[j] == if j < limit then items[..limit][j] else items[limit..][j - limit];
    }
  }

  /** One page that can be read, with a readable entry after it. */
  lemma ReadablePage(es: seq<Entry>, view: View, cursor: Cursor, from: Option<Key>, limits: nat -> nat, i: nat, n: nat,
                     items: seq<Entry>)
    requires items == Items(es, view, from) && n > 0 && limits(i) < |items|
    ensures if Parses(items[..limits(i) + 1]) then
              && Parses(items[..limits(i)])
              && Follow(es, view, cursor, from, limits, i, n)
                 == Before(items[..limits(i)], Follow(es, view, cursor, Some(cursor(items[limits(i)].path)), limits,
                                                      i + 1, n - 1))
            else Follow(es, view, cursor, from, limits, i, n) == Failed
  {
    var limit := limits(i);
    var page, longer := items[..limit], items[..limit + 1];
    assert longer == page + [items[limit]] && longer[limit] == items[limit];
    assert forall j :: 0 <= j < limit ==> longer[j] == page[j];
  }

  /** An entry that cannot be read fails the page that comes to it, if the cursors before it land. */
  lemma {:induction false} UnreadableFails(es: seq<Entry>, view: View, cursor: Cursor, from: Option<Key>,
                                           limits: nat -> nat, i: nat, n: nat, items: seq<Entry>)
    requires Ordered(es) && (forall k :: limits(k) > 0) && items == Items(es, view, from)
    requires CursorsLand(es, view, cursor, items, limits, i) && !Parses(items) && n >= |items|
    ensures Follow(es, view, cursor, from, limits, i, n) == Failed
    decreases n
  {
    var limit := limits(i);
    if |items| <= limit {
      assert items[..|items|] == items;
    } else {
      ReadablePage(es, view, cursor, from, limits, i, n, items);
      if Parses(items[..limit + 1]) {
        var rest := items[limit..];
        CursorsStep(es, view, cursor, items, limits, i, rest);
        NextItems(es, view, cursor, from, limit);
        if Parses(rest) { ParsesJoin(items, limit); }
        UnreadableFails(es, view, cursor, Some(cursor(items[limit].path)), limits, i + 1, n - 1, rest);
      }
    }
  }

  /** A cursor never lies above the entry it was made for. */
  ghost predicate NeverAbove(es: seq<Entry>, view: View, cursor: Cursor) {
    forall i :: 0 <= i < |es| && view(es[i].path) && !es[i].path.Broken? ==> cursor(es[i].path) <= es[i].key
  }

  lemma {:induction false} VisibleSuffix(es: seq<Entry>, view: View, s: nat, k: nat)
    requires s <= k <= |es| && !Parses(Visible(es, view, k))
    ensures !Parses(Visible(es, view, s))
    decreases k - s
  {
    if s < k {
      VisibleSuffix(es, view, s + 1, k);
      var rest := Visible(es, view, s + 1);
      var j :| 0 <= j < |rest| && rest[j].path.Broken?;
      var all := Visible(es, view, s);
      assert all[if view(es[s].path) then j + 1 else j] == rest[j];
    }
  }

  /** Then an unreadable entry stays ahead, and following never comes to an end. */
  lemma {:induction false} UnreadableNeverEnds(es: seq<Entry>, view: View, cursor: Cursor, from: Option<Key>,
                                               limits: nat -> nat, i: nat, n: nat, items: seq<Entry>)
    requires Ordered(es) && NeverAbove(es, view, cursor) && items == Items(es, view, from) && !Parses(items)
    ensures !Follow(es, view, cursor, from, limits, i, n).Done?
    decreases n
  {
    var limit := limits(i);
    if n > 0 {
      if |items| <= limit {
        assert items[..|items|] == items;
      } else {
        ReadablePage(es, view, cursor, from, limits, i, n, items);
        if Parses(items[..limit + 1]) {
          var next := Some(cursor(items[limit].path));
          StillAhead(es, view, cursor, from, limit, items);
          UnreadableNeverEnds(es, view, cursor, next, limits, i + 1, n - 1, Items(es, view, next));
        }
      }
    }
  }

  lemma StillAhead(es: seq<Entry>, view: View, cursor: Cursor, from: Option<Key>, limit: nat, items: seq<Entry>)
    requires Ordered(es) && NeverAbove(es, view, cursor) && items == Items(es, view, from) && limit < |items|
    requires !Parses(items) && Parses(items[..limit + 1])
    ensures !Parses(Items(es, view, Some(cursor(items[limit].path))))
  {
    var page, longer := items[..limit], items[..limit + 1];
    assert longer[limit] == items[limit] && forall j :: 0 <= j < limit ==> longer[j] == page[j];
    if Parses(items[limit..]) { ParsesJoin(items, limit); }
    ItemPlace(es, view, Start(es, from, 0), limit);
    var k: nat :| Start(es, from, 0) <= k && PlacedAt(es, view, items, limit, k);
    var c := cursor(items[limit].path);
    StartIs(es, c, 0);
    VisibleSuffix(es, view, Start(es, Some(c), 0), k);
  }

  // ---------------------------------------------------------------------------------------------
  // Modules and resources
  // ---------------------------------------------------------------------------------------------

  const ModuleView: View := (p: Path) => p.Code? || p.Broken?
  const ResourceView: View := (p: Path) => !p.Code?

  function ModuleKey(keys: Keys, p: Path): Key {
    if p.Code? then keys.code(p.id) else 0
  }

  /** The cursor is built as for a plain resource, whether the entry is a resource or a resource group. */
  function ResourceKey(keys: Keys, p: Path): Key {
    match p
    case Resource(tag) => keys.resource(tag)
    case Group(tag) => keys.resource(tag)
    case _ => 0
  }

  function ModuleCursor(keys: Keys): Cursor {
    p => ModuleKey(keys, p)
  }

  function ResourceCursor(keys: Keys): Cursor {
    p => ResourceKey(keys, p)
  }

  lemma ModuleCursorsLand(keys: Keys, es: seq<Entry>)
    requires Ordered(es) && Encoded(keys, es)
    ensures AlwaysLands(es, ModuleView, ModuleCursor(keys))
  {
  }

  /** What shows from index `k` on is just the visible entries, in key order. */
  lemma {:induction false} VisibleAre(es: seq<Entry>, view: View, k: nat, e: Entry)
    requires k <= |es|
    ensures e in Visible(es, view, k) <==> e in es[k..] && view(e.path)
    decreases |es| - k
  {
    if k < |es| {
      assert es[k..] == [es[k]] + es[k + 1..];
      VisibleAre(es, view, k + 1, e);
    }
  }

  lemma {:induction false} VisibleOrdered(es: seq<Entry>, view: View, k: nat)
    requires Ordered(es) && k <= |es|
    ensures Ordered(Visible(es, view, k))
    decreases |es| - k
  {
    if k < |es| {
      VisibleOrdered(es, view, k + 1);
      var rest := Visible(es, view, k + 1);
      forall i | 0 <= i < |rest| ensures es[k].key < rest[i].key { VisibleAre(es, view, k + 1, rest[i]); }
    }
  }

  lemma ItemsAre(es: seq<Entry>, view: View, from: Option<Key>)
    requires Ordered(es)
    ensures Ordered(Items(es, view, from))
    ensures forall e :: e in Items(es, view, from) <==>
                        e in es && (from.None? || e.key >= from.value) && view(e.path)
  {
    var s := Start(es, from, 0);
    VisibleOrdered(es, view, s);
    if from.Some? { StartIs(es, from.value, 0); }
    assert es == es[..s] + es[s..];
    forall e ensures e in Items(es, view, from) <==>
                     e in es && (from.None? || e.key >= from.value) && view(e.path)
    {
      VisibleAre(es, view, s, e);
    }
  }

  /**
   The scan behind the pages of modules: every module of the account from the cursor on, in key order, each once, with
   whatever cannot be read. The scan behind the pages of resources: everything else, likewise.
   */
  lemma ScansAre(es: seq<Entry>, from: Option<Key>)
    requires Ordered(es)
    ensures Ordered(Items(es, ModuleView, from)) && Ordered(Items(es, ResourceView, from))
    ensures forall e :: e in Items(es, ModuleView, from) <==>
                        && e in es && (from.None? || e.key >= from.value)
                        && (match e.path case Code(_) => true case Broken => true case _ => false)
    ensures forall e :: e in Items(es, ResourceView, from) <==>
                        && e in es && (from.None? || e.key >= from.value)
                        && (match e.path case Code(_) => false case _ => true)
  {
    ItemsAre(es, ModuleView, from);
    ItemsAre(es, ResourceView, from);
  }

  /** Following the cursors lists every module once, or fails if an entry cannot be read. */
  lemma ModulePagesAreTheScan(keys: Keys, es: seq<Entry>, from: Option<Key>, limits: nat -> nat, n: nat)
    requires Ordered(es) && Encoded(keys, es) && (forall k :: limits(k) > 0)
    requires n > 0 && n >= |Items(es, ModuleView, from)|
    ensures Follow(es, ModuleView, ModuleCursor(keys), from, limits, 0, n)
            == if Parses(Items(es, ModuleView, from)) then Done(Items(es, ModuleView, from)) else Failed
  {
    var items := Items(es, ModuleView, from);
    ModuleCursorsLand(keys, es);
    AllCursorsLand(es, ModuleView, ModuleCursor(keys), Start(es, from, 0), items, limits, 0);
    if Parses(items) {
      PagesAreTheScan(es, ModuleView, ModuleCursor(keys), from, limits, 0, n);
    } else {
      UnreadableFails(es, ModuleView, ModuleCursor(keys), from, limits, 0, n, items);
    }
  }

  /** A plain resource's cursor always lands. */
  lemma ResourceCursorLands(keys: Keys, es: seq<Entry>, k: nat)
    requires Ordered(es) && Encoded(keys, es) && k < |es| && es[k].path.Resource?
    ensures Lands(es, ResourceView, ResourceCursor(keys), es[k])
  {
  }

  /**
   Encoded paths start with their length, then say resource or group, then give the name: among names of one length
   resources come before groups, and names of different lengths do not interleave.
   */
  ghost predicate Layout(keys: Keys) {
    && (forall t, u :: keys.size(t) == keys.size(u) ==> keys.resource(t) < keys.group(u))
    && (forall t, u :: keys.size(t) != keys.size(u) ==>
          && (keys.resource(u) < keys.resource(t) <==> keys.resource(u) < keys.group(t))
          && (keys.group(u) < keys.resource(t) <==> keys.group(u) < keys.group(t)))
  }

  /**
   Before `e`, among names of its length, only resources show that sort below a plain resource of its name, and what
   cannot be read lies below that too.
   */
  ghost predicate OpensItsPlace(keys: Keys, es: seq<Entry>, e: Entry)
    requires e.path.Group?
  {
    forall i :: 0 <= i < |es| && es[i].key < e.key ==>
      match es[i].path
      case Code(_) => true
      case Resource(u) => keys.size(u) == keys.size(e.path.tag) ==> es[i].key < keys.resource(e.path.tag)
      case Group(u) => keys.size(u) != keys.size(e.path.tag)
      case Broken => es[i].key < keys.resource(e.path.tag)
  }

  /**
   A resource group's cursor lands exactly when, among names of its length, no resource entry lies at or above the
   place a plain resource of that name would have, no other group comes before it, and nothing unreadable lies between.
   */
  lemma GroupCursorLands(keys: Keys, es: seq<Entry>, k: nat)
    requires Ordered(es) && Encoded(keys, es) && Layout(keys) && k < |es| && es[k].path.Group?
    ensures Lands(es, ResourceView, ResourceCursor(keys), es[k]) <==> OpensItsPlace(keys, es, es[k])
  {
    var t := es[k].path.tag;
    var c := keys.resource(t);
    assert c < keys.group(t) == es[k].key;
    forall i | 0 <= i < |es| && es[i].key < es[k].key
      ensures (ResourceView(es[i].path) ==> es[i].key < c) <==>
              match es[i].path
              case Code(_) => true
              case Resource(u) => keys.size(u) == keys.size(t) ==> es[i].key < c
              case Group(u) => keys.size(u) != keys.size(t)
              case Broken => es[i].key < c
    {
    }
  }

  /** Every resource group that begins a page, but the first page, opens its place. */
  ghost predicate GroupsOpenPages(keys: Keys, es: seq<Entry>, items: seq<Entry>, limits: nat -> nat, i: nat)
    decreases |items|
  {
    limits(i) == 0 || |items| <= limits(i) || !Parses(items[..limits(i) + 1]) ||
    ((items[limits(i)].path.Group? ==> OpensItsPlace(keys, es, items[limits(i)]))
     && GroupsOpenPages(keys, es, items[limits(i)..], limits, i + 1))
  }

  lemma {:induction false} GroupsAreTheCursors(keys: Keys, es: seq<Entry>, s: nat, items: seq<Entry>,
                                               limits: nat -> nat, i: nat)
    requires Ordered(es) && Encoded(keys, es) && Layout(keys)
    requires s <= |es| && items == Visible(es, ResourceView, s)
    ensures CursorsLand(es, ResourceView, ResourceCursor(keys), items, limits, i) <==>
            GroupsOpenPages(keys, es, items, limits, i)
    decreases |items|
  {
    var limit := limits(i);
    if 0 < limit < |items| && Parses(items[..limit + 1]) {
      assert items[..limit + 1][limit] == items[limit];
      ItemPlace(es, ResourceView, s, limit);
      var k: nat :| s <= k && PlacedAt(es, ResourceView, items, limit, k);
      GroupsAreTheCursors(keys, es, k, items[limit..], limits, i + 1);
      if es[k].path.Group? { GroupCursorLands(keys, es, k); } else { ResourceCursorLands(keys, es, k); }
    }
  }

  lemma ResourceCursorsNeverAbove(keys: Keys, es: seq<Entry>)
    requires Encoded(keys, es) && Layout(keys)
    ensures NeverAbove(es, ResourceView, ResourceCursor(keys))
  {
    forall i | 0 <= i < |es| && ResourceView(es[i].path) && !es[i].path.Broken?
      ensures ResourceCursor(keys)(es[i].path) <= es[i].key
    {
      if es[i].path.Group? { assert keys.resource(es[i].path.tag) < keys.group(es[i].path.tag); }
    }
  }

  /**
   Following the cursors lists every resource entry once exactly when all entries can be read and no page but the first
   begins with a resource group that does not open its place. With an entry that cannot be read it never comes to an
   end, and fails if the groups before open their places.
   */
  lemma ResourcePagesAreTheScan(keys: Keys, es: seq<Entry>, from: Option<Key>, limits: nat -> nat, n: nat)
    requires Ordered(es) && Encoded(keys, es) && Layout(keys) && (forall k :: limits(k) > 0)
    requires n > 0 && n >= |Items(es, ResourceView, from)|
    ensures var items := Items(es, ResourceView, from);
            var o := Follow(es, ResourceView, ResourceCursor(keys), from, limits, 0, n);
            && (o == Done(items) <==> Parses(items) && GroupsOpenPages(keys, es, items, limits, 0))
            && (!Parses(items) ==> !o.Done?)
            && (!Parses(items) && GroupsOpenPages(keys, es, items, limits, 0) ==> o == Failed)
  {
    var items, cursor := Items(es, ResourceView, from), ResourceCursor(keys);
    GroupsAreTheCursors(keys, es, Start(es, from, 0), items, limits, 0);
    if Parses(items) {
      PagesAreTheScan(es, ResourceView, cursor, from, limits, 0, n);
    } else {
      ResourceCursorsNeverAbove(keys, es);
      UnreadableNeverEnds(es, ResourceView, cursor, from, limits, 0, n, items);
      if GroupsOpenPages(keys, es, items, limits, 0) {
        UnreadableFails(es, ResourceView, cursor, from, limits, 0, n, items);
      }
    }
  }

  /** All resources of the entries, with groups expanded; None if a group does not decode. */
  function Flatten(items: seq<Entry>): Option<seq<nat>> {
    if items == [] then Some([])
    else Joined(items[0].members, Flatten(items[1..]))
  }

  function Joined(a: Option<seq<nat>>, b: Option<seq<nat>>): Option<seq<nat>> {
    if a.Some? && b.Some? then Some(a.value + b.value) else None
  }

  lemma JoinedIsAssociative(a: Option<seq<nat>>, b: Option<seq<nat>>, c: Option<seq<nat>>)
    ensures Joined(Joined(a, b), c) == Joined(a, Joined(b, c)) && Joined(Some([]), a) == a
  {
    if a.Some? {
      assert [] + a.value == a.value;
      if b.Some? && c.Some? { assert a.value + b.value + c.value == a.value + (b.value + c.value); }
    }
  }

  lemma {:induction false} FlattenJoin(a: seq<Entry>, b: seq<Entry>)
    ensures Flatten(a + b) == Joined(Flatten(a), Flatten(b))
  {
    if a == [] {
      assert a + b == b;
      JoinedIsAssociative(Flatten(b), None, None);
    } else {
      assert (a + b)[1..] == a[1..] + b;
      FlattenJoin(a[1..], b);
      JoinedIsAssociative(a[0].members, Flatten(a[1..]), Flatten(b));
    }
  }

  /** The flattened pages put together; None if a page fails or they do not end. */
  function FlatPages(es: seq<Entry>, cursor: Cursor, from: Option<Key>, limits: nat -> nat, i: nat, n: nat)
    : Option<seq<nat>>
    decreases n
  {
    if n == 0 then None
    else
      match Page(es, ResourceView, cursor, from, limits(i))
      case Err(_) => None
      case Ok((page, None)) => Flatten(page)
      case Ok((page, Some(next))) =>
        if Flatten(page).None? then None
        else Joined(Flatten(page), FlatPages(es, cursor, Some(next), limits, i + 1, n - 1))
  }

  /** Expanding groups page by page gives the expansion of the whole scan, and fails if any group does not decode. */
  lemma {:induction false} FlatPagesAreFlattened(es: seq<Entry>, cursor: Cursor, from: Option<Key>, limits: nat -> nat,
                                                 i: nat, n: nat)
    ensures var o := Follow(es, ResourceView, cursor, from, limits, i, n);
            FlatPages(es, cursor, from, limits, i, n) == if o.Done? then Flatten(o.items) else None
    decreases n
  {
    if n > 0 {
      var page := Page(es, ResourceView, cursor, from, limits(i));
      if page.Ok? && page.value.1.Some? {
        var rest := Follow(es, ResourceView, cursor, page.value.1, limits, i + 1, n - 1);
        FlatPagesAreFlattened(es, cursor, page.value.1, limits, i + 1, n - 1);
        if rest.Done? { FlattenJoin(page.value.0, rest.items); }
      }
    }
  }

  /** No two paths have the same key. */
  ghost predicate Injective(keys: Keys) {
    && (forall t, u :: keys.code(t) == keys.code(u) ==> t == u)
    && (forall t, u :: keys.resource(t) == keys.resource(u) ==> t == u)
    && (forall t, u :: keys.group(t) == keys.group(u) ==> t == u)
    && (forall t, u :: keys.code(t) != keys.resource(u))
    && (forall t, u :: keys.code(t) != keys.group(u))
    && (forall t, u :: keys.resource(t) != keys.group(u))
  }

  /** Ten names of each length, and for each length ten keys of each kind: code, resources, groups. */
  function Place(kind: nat, tag: Tag): Key {
    30 * (tag / 10) + 10 * kind + tag % 10
  }

  function PlainKeys(): Keys {
    Keys(id => Place(0, id), tag => Place(1, tag), tag => Place(2, tag), tag => tag / 10)
  }

  lemma PlaceIsUnique(a: nat, t: Tag, b: nat, u: Tag)
    requires a < 3 && b < 3
    ensures Place(a, t) == Place(b, u) ==> a == b && t == u
  {
    var x, y := 10 * a + t % 10, 10 * b + u % 10;
    assert x < 30 && y < 30;
    if t / 10 == u / 10 && x == y { assert t % 10 == u % 10; }
  }

  /** Keys are sorted by the length of the name first, and then by kind. */
  lemma PlaceIsSorted(a: nat, t: Tag, b: nat, u: Tag)
    requires a < 3 && b < 3
    ensures t / 10 != u / 10 ==> (Place(a, t) < Place(b, u) <==> t / 10 < u / 10)
    ensures t / 10 == u / 10 && a < b ==> Place(a, t) < Place(b, u)
  {
    assert 10 * a + t % 10 < 30 && 10 * b + u % 10 < 30;
  }

  lemma PlainKeysAreInjective()
    ensures Injective(PlainKeys())
  {
    forall a: nat, t, b: nat, u | a < 3 && b < 3 ensures Place(a, t) == Place(b, u) ==> a == b && t == u {
      PlaceIsUnique(a, t, b, u);
    }
  }

  lemma PlainKeysAreLaidOut()
    ensures Layout(PlainKeys())
  {
    forall t, u ensures t / 10 == u / 10 ==> Place(1, t) < Place(2, u) { PlaceIsSorted(1, t, 2, u); }
    forall t, u | t / 10 != u / 10
      ensures Place(1, u) < Place(1, t) <==> Place(1, u) < Place(2, t)
      ensures Place(2, u) < Place(1, t) <==> Place(2, u) < Place(2, t)
    {
      PlaceIsSorted(1, u, 1, t);
      PlaceIsSorted(1, u, 2, t);
      PlaceIsSorted(2, u, 1, t);
      PlaceIsSorted(2, u, 2, t);
    }
  }

  /** The smallest failing case: a resource, then a group whose name sorts before it, one entry a page. */
  function TwoEntries(): seq<Entry> {
    [Entry(12, Resource(2), Some([20])), Entry(21, Group(1), Some([10]))]
  }

  lemma TwoEntriesAreReal()
    ensures Ordered(TwoEntries()) && Encoded(PlainKeys(), TwoEntries())
    ensures Visible(TwoEntries(), ResourceView, 0) == TwoEntries()
    ensures ResourceCursor(PlainKeys())(Group(1)) == 11
  {
    var es := TwoEntries();
    assert Visible(es, ResourceView, 1) == [es[1]] by { assert Visible(es, ResourceView, 2) == []; }
  }

  lemma {:induction false} CursorRepeats(cursor: Cursor, from: Option<Key>, i: nat, n: nat)
    requires cursor(Group(1)) == 11 && (from.None? || from.value <= 12)
    requires Visible(TwoEntries(), ResourceView, 0) == TwoEntries()
    ensures Follow(TwoEntries(), ResourceView, cursor, from, k => 1, i, n).More?
    decreases n
  {
    if n > 0 { CursorRepeats(cursor, Some(11), i + 1, n - 1); }
  }

  /** The cursor goes back before the resource: the same page is returned for ever, in an account that can exist. */
  lemma GroupCursorRepeats(from: Option<Key>, i: nat, n: nat)
    requires from.None? || from.value <= 12
    ensures Layout(PlainKeys()) && Injective(PlainKeys())
    ensures Ordered(TwoEntries()) && Encoded(PlainKeys(), TwoEntries())
    ensures Follow(TwoEntries(), ResourceView, ResourceCursor(PlainKeys()), from, k => 1, i, n).More?
  {
    PlainKeysAreInjective();
    PlainKeysAreLaidOut();
    TwoEntriesAreReal();
    CursorRepeats(ResourceCursor(PlainKeys()), from, i, n);
  }
}
