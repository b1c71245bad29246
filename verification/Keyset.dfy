/** Keyset pagination of the job list, newest first, while rows are inserted between two pages. */
module Keyset {
  import opened Wrappers
  import opened Selection

  const DEFAULT_LIST_LIMIT := 20
  const MAX_LIST_LIMIT := 100

  // The sort columns of a job row; a cursor holds those of the last row of a page.
  datatype Key = Key(createdAt: int, id: nat)

  datatype Page = Page(items: seq<Key>, nextCursor: Option<Key>)

  // `k` is listed before `l`: ORDER BY created_at DESC, id DESC.
  predicate Before(k: Key, l: Key) {
    k.createdAt > l.createdAt || (k.createdAt == l.createdAt && k.id > l.id)
  }

  predicate Descending(keys: seq<Key>) {
    forall i, j :: 0 <= i < j < |keys| ==> Before(keys[i], keys[j])
  }

  function NormalizeLimit(limit: Option<int>): (n: nat)
    ensures limit.Some? && 1 <= limit.value <= 100 ==> n == limit.value
    ensures limit.Some? && limit.value < 1 ==> n == 1
    ensures limit.Some? && limit.value > 100 ==> n == 100
    ensures limit == None ==> n == 20
  {
    if limit == None then DEFAULT_LIST_LIMIT else Max(1, Min(limit.value, MAX_LIST_LIMIT))
  }

  /* ----- The whole list ----- */

  lemma {:induction false} FirstExists(keys: set<Key>)
    requires keys != {}
    ensures exists k :: k in keys && forall l | l in keys :: l == k || Before(k, l)
  {
    var z :| z in keys;
    if keys == {z} {
      assert forall l | l in keys :: l == z;
    } else {
      FirstExists(keys - {z});
      var k :| k in keys - {z} && forall l | l in keys - {z} :: l == k || Before(k, l);
      var first := if Before(z, k) then z else k;
      forall l | l in keys ensures l == first || Before(first, l) {
        assert l == z || l in keys - {z};
      }
    }
  }

  lemma DescendingConcat(a: seq<Key>, b: seq<Key>)
    requires Descending(a) && Descending(b)
    requires forall k, l | k in a && l in b :: Before(k, l)
    ensures Descending(a + b)
  {
    forall i, j | 0 <= i < j < |a + b| ensures Before((a + b)[i], (a + b)[j]) {
      if i < |a| <= j {
        assert a[i] in a && b[j - |a|] in b;
      }
    }
  }

  // The simple sorted list.
  function Listing(keys: set<Key>): (list: seq<Key>)
    ensures Elements(list) == keys && Descending(list)
    ensures forall i, j :: 0 <= i < j < |list| ==>
              list[i].createdAt > list[j].createdAt
              || (list[i].createdAt == list[j].createdAt && list[i].id > list[j].id)
  {
    if keys == {} then []
    else
      FirstExists(keys);
      var first :| first in keys && forall l | l in keys :: l == first || Before(first, l);
      var rest := Listing(keys - {first});
      Prepend(first, rest, keys);
      [first] + rest
  }

  lemma Prepend(first: Key, rest: seq<Key>, keys: set<Key>)
    requires first in keys && Elements(rest) == keys - {first} && Descending(rest)
    requires forall l | l in keys :: l == first || Before(first, l)
    ensures Elements([first] + rest) == keys && Descending([first] + rest)
  {
    forall k ensures k in [first] + rest <==> k == first || k in Elements(rest) {
    }
    assert forall k | k in rest :: k in Elements(rest);
    DescendingConcat([first], rest);
  }

  /** A list is determined by its elements and its order. */
  lemma {:induction false} DescendingIsUnique(a: seq<Key>, b: seq<Key>)
    requires Descending(a) && Descending(b) && Elements(a) == Elements(b)
    ensures a == b
  {
    assert a != [] ==> a[0] in Elements(b);
    assert b != [] ==> b[0] in Elements(a);
    if a != [] && b != [] {
      assert a[0] == b[0];
      assert Elements(a[1..]) == Elements(a) - {a[0]};
      assert Elements(b[1..]) == Elements(b) - {b[0]};
      DescendingIsUnique(a[1..], b[1..]);
    }
  }

  /* ----- One page ----- */

  // _keyset_clause: the rows that come after the cursor.
  function After(keys: set<Key>, cursor: Option<Key>): set<Key> {
    set k | k in keys && (cursor == None || k.createdAt < cursor.value.createdAt
                          || (k.createdAt == cursor.value.createdAt && k.id < cursor.value.id))
  }

  function Take<T>(s: seq<T>, n: nat): seq<T> {
    s[..Min(n, |s|)]
  }

  // list_for_owner_keyset or list_all_keyset, on the rows of the scope.
  function Query(keys: set<Key>, cursor: Option<Key>, limit: nat): seq<Key> {
    Take(Listing(After(keys, cursor)), limit)
  }

  // One more row than the page holds tells whether there is another page.
  function BuildPage(rows: seq<Key>, limit: nat): Page
    requires limit >= 1
  {
    var items := Take(rows, limit);
    Page(items, if |rows| > limit then Some(items[|items| - 1]) else None)
  }

  function ListPage(keys: set<Key>, cursor: Option<Key>, limit: nat): Page
    requires limit >= 1
  {
    BuildPage(Query(keys, cursor, limit + 1), limit)
  }

  // `k` is listed at the cursor or before it; without a cursor nothing is.
  predicate UpTo(cursor: Option<Key>, k: Key) {
    cursor.Some? && (k == cursor.value || Before(k, cursor.value))
  }

  // After the one cursor, and up to the other.
  predicate Within(cursor: Option<Key>, k: Key, next: Option<Key>) {
    !UpTo(cursor, k) && (next == None || UpTo(next, k))
  }

  // The page holds exactly the rows from its cursor to the next one, or to the end.
  ghost predicate IsSlice(keys: set<Key>, cursor: Option<Key>, page: Page) {
    && Descending(page.items)
    && (forall k | k in page.items :: k in keys && Within(cursor, k, page.nextCursor))
    && (forall k | k in keys && Within(cursor, k, page.nextCursor) :: k in page.items)
  }

  // The rows up to the `n`-th one are the first `n` rows.
  lemma TakeIsUpTo(list: seq<Key>, n: nat)
    requires Descending(list) && 0 < n <= |list|
    ensures forall k | k in list :: k in list[..n] <==> UpTo(Some(list[n - 1]), k)
  {
  }

  lemma ListingAfter(keys: set<Key>, cursor: Option<Key>)
    ensures forall k :: k in Listing(After(keys, cursor)) <==> k in keys && !UpTo(cursor, k)
  {
    forall k ensures k in Listing(After(keys, cursor)) <==> k in keys && !UpTo(cursor, k) {
      assert k in Listing(After(keys, cursor)) <==> k in Elements(Listing(After(keys, cursor)));
    }
  }

  // A page is the head of what follows its cursor, with a next cursor if that is not all.
  lemma PageIsAHead(keys: set<Key>, cursor: Option<Key>, limit: nat)
    requires limit >= 1
    ensures var list, page := Listing(After(keys, cursor)), ListPage(keys, cursor, limit);
            && page.items == Take(list, limit) && (page.nextCursor.Some? <==> |list| > limit)
            && (page.nextCursor.Some? ==> page.nextCursor.value == list[limit - 1])
  {
  }

  lemma TakenIsASlice(keys: set<Key>, cursor: Option<Key>, list: seq<Key>, page: Page, limit: nat)
    requires limit >= 1 && Descending(list) && forall k :: k in list <==> k in keys && !UpTo(cursor, k)
    requires page.items == Take(list, limit) && (page.nextCursor.Some? <==> |list| > limit)
    requires page.nextCursor.Some? ==> page.nextCursor.value == list[limit - 1]
    ensures IsSlice(keys, cursor, page)
  {
    hide UpTo, Before;
    if page.nextCursor.Some? {
      TakeIsUpTo(list, limit);
    }
  }

  lemma NextIsNotTaken(list: seq<Key>, n: nat)
    requires Descending(list)
    ensures n < |list| ==> list[n] in list && list[n] !in list[..n]
  {
  }

  /**
   A page never exceeds its limit.  It has a next cursor exactly if there is a row
   after its cursor that it does not hold; then it is full, and the cursor is its last row.
   */
  lemma PageIsASlice(keys: set<Key>, cursor: Option<Key>, limit: nat)
    requires limit >= 1
    ensures var page := ListPage(keys, cursor, limit);
            && IsSlice(keys, cursor, page) && |page.items| <= limit
            && (page.nextCursor.Some? <==> exists k | k in keys && !UpTo(cursor, k) :: k !in page.items)
            && (page.nextCursor.Some? ==> |page.items| == limit && page.nextCursor.value == page.items[limit - 1])
  {
    var list, page := Listing(After(keys, cursor)), ListPage(keys, cursor, limit);
    ListingAfter(keys, cursor);
    PageIsAHead(keys, cursor, limit);
    hide Listing, ListPage, After, UpTo, IsSlice;
    TakenIsASlice(keys, cursor, list, page, limit);
    NextIsNotTaken(list, limit);
    assert |list| <= limit ==> page.items == list;
  }

  /* ----- Following the cursors ----- */

  // Rows are inserted, and never deleted.
  ghost predicate Grow(tables: seq<set<Key>>) {
    forall i, k | 0 <= i <= k < |tables| :: tables[i] <= tables[k]
  }

  // The cursor that page `i` is asked for with.
  function CursorBefore(pages: seq<Page>, i: nat): Option<Key>
    requires i <= |pages|
  {
    if i == 0 then None else pages[i - 1].nextCursor
  }

  // Page `i` comes from the table of its time, and is the last one exactly when it has no cursor.
  ghost predicate Follows(tables: seq<set<Key>>, pages: seq<Page>, limit: nat, i: nat)
    requires limit >= 1 && i < |pages| == |tables|
  {
    && pages[i] == ListPage(tables[i], CursorBefore(pages, i), limit)
    && (pages[i].nextCursor == None <==> i == |pages| - 1)
  }

  ghost predicate IsWalk(tables: seq<set<Key>>, pages: seq<Page>, limit: nat)
    requires limit >= 1
  {
    |pages| == |tables| > 0 && Grow(tables) && forall i | 0 <= i < |pages| :: Follows(tables, pages, limit, i)
  }

  function Items(pages: seq<Page>): seq<Key> {
    if pages == [] then [] else Items(pages[..|pages| - 1]) + pages[|pages| - 1].items
  }

  // What the first `n` pages contain, when another one follows or they are all.
  ghost predicate Walked(tables: seq<set<Key>>, pages: seq<Page>, n: nat)
    requires 0 < n <= |pages| == |tables|
  {
    var items, next := Items(pages[..n]), pages[n - 1].nextCursor;
    && Descending(items)
    && (forall k | k in items :: k in tables[n - 1] && (next == None || UpTo(next, k)))
    && (forall k | k in tables[0] && (next == None || UpTo(next, k)) :: k in items)
  }

  // What is known after some pages, continued by one more page.
  lemma OneMorePage(first: set<Key>, before: set<Key>, keys: set<Key>, items: seq<Key>, cursor: Key, page: Page)
    requires Descending(items) && before <= keys && first <= keys && IsSlice(keys, Some(cursor), page)
    requires forall k | k in items :: k in before && UpTo(Some(cursor), k)
    requires forall k | k in first && UpTo(Some(cursor), k) :: k in items
    ensures Descending(items + page.items)
    ensures page.nextCursor.Some? && page.nextCursor.value in page.items ==>
              forall k | k in items + page.items :: k in keys && UpTo(page.nextCursor, k)
    ensures forall k | k in items + page.items :: k in keys
    ensures forall k | k in first && (page.nextCursor == None || UpTo(page.nextCursor, k)) :: k in items + page.items
  {
    DescendingConcat(items, page.items);
  }

  lemma NextPageIsWalked(tables: seq<set<Key>>, pages: seq<Page>, limit: nat, n: nat)
    requires limit >= 1 && IsWalk(tables, pages, limit) && 0 < n < |pages| && Walked(tables, pages, n)
    ensures Walked(tables, pages, n + 1)
  {
    var cursor, page := pages[n - 1].nextCursor, pages[n];
    assert Follows(tables, pages, limit, n) && Follows(tables, pages, limit, n - 1);
    PageIsASlice(tables[n], cursor, limit);
    hide ListPage, IsWalk, Descending, UpTo, IsSlice;
    assert Items(pages[..n + 1]) == Items(pages[..n]) + page.items by {
      assert pages[..n + 1][..n] == pages[..n];
    }
    OneMorePage(tables[0], tables[n - 1], tables[n], Items(pages[..n]), cursor.value, page);
  }

  lemma FirstPageIsWalked(tables: seq<set<Key>>, pages: seq<Page>, limit: nat)
    requires limit >= 1 && IsWalk(tables, pages, limit)
    ensures Walked(tables, pages, 1)
  {
    assert Follows(tables, pages, limit, 0);
    PageIsASlice(tables[0], None, limit);
    assert Items(pages[..1]) == pages[0].items by {
      assert pages[..1][..0] == [];
    }
  }

  lemma {:induction false} PrefixIsWalked(tables: seq<set<Key>>, pages: seq<Page>, limit: nat, n: nat)
    requires limit >= 1 && IsWalk(tables, pages, limit) && 0 < n <= |pages|
    ensures Walked(tables, pages, n)
  {
    if n > 1 {
      PrefixIsWalked(tables, pages, limit, n - 1);
      NextPageIsWalked(tables, pages, limit, n - 1);
    } else {
      FirstPageIsWalked(tables, pages, limit);
    }
  }

  /**
   Following the cursors to the end, with any inserts between the pages, lists the
   rows in strictly descending order, hence none twice, and every row that was there
   at the start.
   */
  lemma WalkListsEveryRowOnce(tables: seq<set<Key>>, pages: seq<Page>, limit: nat)
    requires limit >= 1 && IsWalk(tables, pages, limit)
    ensures Descending(Items(pages)) && Distinct(Items(pages))
    ensures tables[0] <= Elements(Items(pages)) <= tables[|tables| - 1]
  {
    PrefixIsWalked(tables, pages, limit, |pages|);
    assert Follows(tables, pages, limit, |pages| - 1);
    assert pages[..|pages|] == pages;
  }

  /** A client never gets an empty page for a cursor that it was given. */
  lemma LaterPagesHaveRows(tables: seq<set<Key>>, pages: seq<Page>, limit: nat, i: nat)
    requires limit >= 1 && IsWalk(tables, pages, limit) && 0 < i < |pages|
    ensures pages[i].items != []
  {
    assert Follows(tables, pages, limit, i - 1) && Follows(tables, pages, limit, i);
    PageIsASlice(tables[i - 1], CursorBefore(pages, i - 1), limit);
    PageIsASlice(tables[i], CursorBefore(pages, i), limit);
    hide ListPage, UpTo;
    var k :| k in tables[i - 1] && !UpTo(CursorBefore(pages, i - 1), k) && k !in pages[i - 1].items;
    assert !Within(CursorBefore(pages, i - 1), k, pages[i - 1].nextCursor);
    assert k in tables[i] && !UpTo(CursorBefore(pages, i), k);
  }

  /** Without inserts, the pages put together are the sorted list. */
  lemma QuietWalkIsTheListing(tables: seq<set<Key>>, pages: seq<Page>, limit: nat)
    requires limit >= 1 && IsWalk(tables, pages, limit) && tables[|tables| - 1] == tables[0]
    ensures Items(pages) == Listing(tables[0])
  {
    WalkListsEveryRowOnce(tables, pages, limit);
    DescendingIsUnique(Items(pages), Listing(tables[0]));
  }

  lemma CursorAdvances(keys: set<Key>, cursor: Option<Key>, limit: nat)
    requires limit >= 1 && ListPage(keys, cursor, limit).nextCursor.Some?
    ensures After(keys, ListPage(keys, cursor, limit).nextCursor) < After(keys, cursor)
  {
    var page := ListPage(keys, cursor, limit);
    PageIsASlice(keys, cursor, limit);
    assert page.nextCursor.value in page.items;
    assert page.nextCursor.value in After(keys, cursor);
  }

  // Pages of a table at rest, each got with the cursor of the one before.
  ghost predicate Chained(keys: set<Key>, pages: seq<Page>, limit: nat)
    requires limit >= 1
  {
    && |pages| > 0
    && (forall i | 0 <= i < |pages| :: pages[i] == ListPage(keys, CursorBefore(pages, i), limit))
    && (forall i | 0 <= i < |pages| - 1 :: pages[i].nextCursor.Some?)
  }

  lemma ExtendChain(keys: set<Key>, pages: seq<Page>, limit: nat)
    requires limit >= 1 && Chained(keys, pages, limit) && pages[|pages| - 1].nextCursor.Some?
    ensures Chained(keys, pages + [ListPage(keys, pages[|pages| - 1].nextCursor, limit)], limit)
  {
    hide ListPage;
    var longer := pages + [ListPage(keys, pages[|pages| - 1].nextCursor, limit)];
    assert forall i | 0 <= i <= |pages| :: CursorBefore(longer, i) == CursorBefore(pages, i);
  }

  lemma ChainIsAWalk(keys: set<Key>, pages: seq<Page>, limit: nat)
    requires limit >= 1 && Chained(keys, pages, limit) && pages[|pages| - 1].nextCursor == None
    ensures IsWalk(seq(|pages|, _ => keys), pages, limit) && Items(pages) == Listing(keys)
  {
    hide ListPage;
    var tables := seq(|pages|, _ => keys);
    assert forall i | 0 <= i < |pages| :: Follows(tables, pages, limit, i);
    QuietWalkIsTheListing(tables, pages, limit);
  }

  /** A client that follows the cursors of a table at rest comes to an end, with the sorted list. */
  method FollowCursors(keys: set<Key>, limit: Option<int>) returns (pages: seq<Page>)
    ensures IsWalk(seq(|pages|, _ => keys), pages, NormalizeLimit(limit))
    ensures Items(pages) == Listing(keys)
  {
    hide ListPage, Listing, After;
    var n := NormalizeLimit(limit);
    var cursor, page := None, ListPage(keys, None, n);
    pages := [page];
    while page.nextCursor.Some?
      invariant Chained(keys, pages, n) && page == pages[|pages| - 1] == ListPage(keys, cursor, n)
      decreases After(keys, cursor)
    {
      CursorAdvances(keys, cursor, n);
      ExtendChain(keys, pages, n);
      cursor := page.nextCursor;
      page := ListPage(keys, cursor, n);
      pages := pages + [page];
    }
    ChainIsAWalk(keys, pages, n);
  }
}
