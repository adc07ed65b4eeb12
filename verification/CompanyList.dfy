/**
 * Keyset pagination: `listCompanies` of apps/api/src/modules/companies/repo.ts and
 * service.ts.  The table may be a different one at every page, so the theorems cover any
 * inserts, deactivations and scope changes made between pages.
 */
module CompanyList {
  import opened Prelude
  import Sorting

  /** created_at never changes and the id breaks ties. */
  datatype Key = Key(createdAt: int, id: nat)

  datatype Row = Row(key: Key, active: bool, inScope: bool)

  /** The table as one statement sees it. */
  type Table = seq<Row>

  datatype Page = Page(items: seq<Key>, nextCursor: Option<Key>)

  /** `(a.created_at, a.id) < (b.created_at, b.id)`. */
  predicate Before(a: Key, b: Key) {
    a.createdAt < b.createdAt || (a.createdAt == b.createdAt && a.id < b.id)
  }

  const NEWEST_FIRST: (Key, Key) -> bool := (a: Key, b: Key) => a == b || Before(b, a)

  predicate Shows(row: Row, cursor: Option<Key>) {
    row.active && row.inScope && (cursor.Some? ==> Before(row.key, cursor.value))
  }

  /** The WHERE clause. */
  function Matching(table: Table, cursor: Option<Key>): seq<Key> {
    if table == [] then []
    else (if Shows(table[0], cursor) then [table[0].key] else []) + Matching(table[1..], cursor)
  }

  function Listing(table: Table, cursor: Option<Key>): seq<Key> {
    Sorting.Sort(Matching(table, cursor), NEWEST_FIRST)
  }

  /** One row more than the page is fetched, to know whether there is another page. */
  function ListPage(table: Table, cursor: Option<Key>, limit: nat): Page
    requires limit > 0
  {
    var all := Listing(table, cursor);
    var rows := if |all| > limit + 1 then all[..limit + 1] else all;
    if |rows| > limit then Page(rows[..limit], Some(rows[limit - 1]))
    else Page(rows, None)
  }

  /** `id` is the primary key. */
  predicate PrimaryKey(table: Table) {
    forall i, j :: 0 <= i < j < |table| ==> table[i].key.id != table[j].key.id
  }

  predicate Visible(table: Table, k: Key) {
    exists i :: 0 <= i < |table| && table[i].key == k && table[i].active && table[i].inScope
  }

  // ----- one listing -----

  lemma NewestFirstIsTotal()
    ensures Sorting.TotalOrder(NEWEST_FIRST)
    ensures forall a, b :: NEWEST_FIRST(a, b) && NEWEST_FIRST(b, a) ==> a == b
  {
  }

  lemma {:induction false} MatchingMembers(table: Table, cursor: Option<Key>, k: Key)
    ensures k in Matching(table, cursor) <==> Visible(table, k) && (cursor.Some? ==> Before(k, cursor.value))
  {
    if table == [] {
    } else {
      MatchingMembers(table[1..], cursor, k);
      if i :| 0 <= i < |table| && table[i].key == k && table[i].active && table[i].inScope {
        if i > 0 {
          assert table[1..][i - 1] == table[i];
        }
      }
      if Visible(table[1..], k) {
        var i :| 0 <= i < |table[1..]| && table[1..][i].key == k && table[1..][i].active && table[1..][i].inScope;
        assert table[i + 1].key == k;
      }
    }
  }

  lemma {:induction false} MatchingDistinct(table: Table, cursor: Option<Key>)
    requires PrimaryKey(table)
    ensures Sorting.Distinct(Matching(table, cursor))
  {
    if table == [] {
    } else {
      MatchingDistinct(table[1..], cursor);
      MatchingMembers(table[1..], cursor, table[0].key);
      assert !Visible(table[1..], table[0].key);
    }
  }

  /** The listing shows each visible row below the cursor once, newest first. */
  lemma ListingIsExact(table: Table, cursor: Option<Key>)
    requires PrimaryKey(table)
    ensures Sorting.Strict(Listing(table, cursor), NEWEST_FIRST)
    ensures forall k :: k in Listing(table, cursor) <==> Visible(table, k) && (cursor.Some? ==> Before(k, cursor.value))
  {
    NewestFirstIsTotal();
    MatchingDistinct(table, cursor);
    Sorting.SortIsStrict(Matching(table, cursor), NEWEST_FIRST);
    forall k
      ensures k in Listing(table, cursor) <==> Visible(table, k) && (cursor.Some? ==> Before(k, cursor.value))
    {
      Sorting.SortKeepsMembers(Matching(table, cursor), NEWEST_FIRST, k);
      MatchingMembers(table, cursor, k);
    }
  }

  // ----- following nextCursor -----

  /** One request: the table it met and the page size it asked for. */
  datatype Visit = Visit(table: Table, limit: nat)

  ghost predicate Sane(visits: seq<Visit>) {
    forall i :: 0 <= i < |visits| ==> visits[i].limit > 0 && PrimaryKey(visits[i].table)
  }

  datatype Walked = Walked(keys: seq<Key>, ended: bool)

  /** Everything shown while following the cursors; `ended` when a page has no next one. */
  function Follow(visits: seq<Visit>, cursor: Option<Key>): Walked
    requires forall i :: 0 <= i < |visits| ==> visits[i].limit > 0
    decreases |visits|
  {
    if visits == [] then Walked([], false)
    else
      var page := ListPage(visits[0].table, cursor, visits[0].limit);
      if page.nextCursor.None? then Walked(page.items, true)
      else
        var rest := Follow(visits[1..], page.nextCursor);
        Walked(page.items + rest.keys, rest.ended)
  }

  /** A page is the front of the listing, and the cursor is its last row when more follow. */
  lemma PageIsFront(table: Table, cursor: Option<Key>, limit: nat)
    requires limit > 0
    ensures var all := Listing(table, cursor); var page := ListPage(table, cursor, limit);
            if |all| > limit then page == Page(all[..limit], Some(all[limit - 1])) else page == Page(all, None)
  {
    var all := Listing(table, cursor);
    if |all| > limit + 1 {
      assert all[..limit + 1][..limit] == all[..limit];
    }
  }

  predicate AllBelow(keys: seq<Key>, cursor: Option<Key>) {
    cursor.Some? ==> forall i :: 0 <= i < |keys| ==> Before(keys[i], cursor.value)
  }

  lemma JoinStrict(a: seq<Key>, b: seq<Key>)
    requires a != [] && Sorting.Strict(a, NEWEST_FIRST) && Sorting.Strict(b, NEWEST_FIRST)
    requires AllBelow(b, Some(a[|a| - 1]))
    ensures Sorting.Strict(a + b, NEWEST_FIRST)
  {
    forall i, j | 0 <= i < j < |a + b|
      ensures NEWEST_FIRST((a + b)[i], (a + b)[j]) && !NEWEST_FIRST((a + b)[j], (a + b)[i])
    {
      if i < |a| <= j {
        assert (a + b)[j] == b[j - |a|];
        assert i < |a| - 1 ==> NEWEST_FIRST(a[i], a[|a| - 1]);
      }
    }
  }

  /** One page alone: in order, below its cursor, and its next cursor is its last row. */
  lemma PageInOrder(table: Table, cursor: Option<Key>, limit: nat)
    requires PrimaryKey(table) && limit > 0
    ensures var page := ListPage(table, cursor, limit);
            && Sorting.Strict(page.items, NEWEST_FIRST) && AllBelow(page.items, cursor)
            && (page.nextCursor.Some? ==>
                  page.items != [] && page.nextCursor == Some(page.items[|page.items| - 1]))
  {
    var all := Listing(table, cursor);
    ListingIsExact(table, cursor);
    PageIsFront(table, cursor, limit);
    forall i | 0 <= i < |all|
      ensures cursor.Some? ==> Before(all[i], cursor.value)
    {
      assert all[i] in all;
    }
  }

  lemma BelowIsTransitive(keys: seq<Key>, last: Key, cursor: Option<Key>)
    requires AllBelow(keys, Some(last)) && (cursor.Some? ==> Before(last, cursor.value))
    ensures AllBelow(keys, cursor)
  {
  }

  lemma JoinBelow(a: seq<Key>, b: seq<Key>, cursor: Option<Key>)
    requires AllBelow(a, cursor) && AllBelow(b, cursor)
    ensures AllBelow(a + b, cursor)
  {
  }

  /** No row is shown twice, whatever happens to the table, and the order is newest first. */
  lemma {:induction false} NothingTwice(visits: seq<Visit>, cursor: Option<Key>)
    requires Sane(visits)
    ensures Sorting.Strict(Follow(visits, cursor).keys, NEWEST_FIRST)
    ensures AllBelow(Follow(visits, cursor).keys, cursor)
    decreases |visits|
  {
    if visits == [] {
    } else {
      var page := ListPage(visits[0].table, cursor, visits[0].limit);
      PageInOrder(visits[0].table, cursor, visits[0].limit);
      if page.nextCursor.Some? {
        var rest := Follow(visits[1..], page.nextCursor).keys;
        NothingTwice(visits[1..], page.nextCursor);
        JoinStrict(page.items, rest);
        BelowIsTransitive(rest, page.nextCursor.value, cursor);
        JoinBelow(page.items, rest, cursor);
      }
    }
  }

  /** Only rows visible at some page are shown. */
  lemma {:induction false} OnlyVisibleRows(visits: seq<Visit>, cursor: Option<Key>, k: Key) returns (i: nat)
    requires Sane(visits) && k in Follow(visits, cursor).keys
    ensures i < |visits| && Visible(visits[i].table, k)
    decreases |visits|
  {
    var v := visits[0];
    var page := ListPage(v.table, cursor, v.limit);
    ListingIsExact(v.table, cursor);
    PageIsFront(v.table, cursor, v.limit);
    if k in page.items {
      i := 0;
      assert k in Listing(v.table, cursor);
    } else {
      i := OnlyVisibleRows(visits[1..], page.nextCursor, k);
      i := i + 1;
    }
  }

  lemma LaterIsBelow(all: seq<Key>, limit: nat, k: Key)
    requires Sorting.Strict(all, NEWEST_FIRST) && 0 < limit <= |all|
    requires k in all && k !in all[..limit]
    ensures Before(k, all[limit - 1])
  {
    assert all == all[..limit] + all[limit..];
    var j :| 0 <= j < |all[limit..]| && all[limit..][j] == k;
    assert NEWEST_FIRST(all[limit - 1], all[limit + j]);
  }

  /** A row active and in scope throughout is shown, and by `NothingTwice` once. */
  lemma {:induction false} NothingMissed(visits: seq<Visit>, cursor: Option<Key>, k: Key)
    requires Sane(visits) && Follow(visits, cursor).ended
    requires cursor.Some? ==> Before(k, cursor.value)
    requires forall i :: 0 <= i < |visits| ==> Visible(visits[i].table, k)
    ensures k in Follow(visits, cursor).keys
    decreases |visits|
  {
    var v := visits[0];
    var all := Listing(v.table, cursor);
    var page := ListPage(v.table, cursor, v.limit);
    ListingIsExact(v.table, cursor);
    PageIsFront(v.table, cursor, v.limit);
    if page.nextCursor.Some? && k !in page.items {
      LaterIsBelow(all, v.limit, k);
      NothingMissed(visits[1..], page.nextCursor, k);
    }
  }

  lemma FrontIsNotBelow(all: seq<Key>, limit: nat, k: Key)
    requires Sorting.Strict(all, NEWEST_FIRST) && 0 < limit <= |all|
    ensures k in all[..limit] ==> !Before(k, all[limit - 1])
  {
    if k in all[..limit] {
      var i :| 0 <= i < limit && all[i] == k;
      assert i < limit - 1 ==> NEWEST_FIRST(all[i], all[limit - 1]);
    }
  }

  /** What is left after a page is the listing below its last row. */
  lemma RestOfListing(table: Table, cursor: Option<Key>, limit: nat)
    requires PrimaryKey(table) && 0 < limit < |Listing(table, cursor)|
    ensures Listing(table, Some(Listing(table, cursor)[limit - 1])) == Listing(table, cursor)[limit..]
  {
    var all := Listing(table, cursor);
    var last := all[limit - 1];
    var below := Listing(table, Some(last));
    ListingIsExact(table, cursor);
    ListingIsExact(table, Some(last));
    assert last in all;
    forall k
      ensures k in below <==> k in all[limit..]
    {
      if k in all[limit..] {
        var i :| 0 <= i < |all[limit..]| && all[limit..][i] == k;
        assert all[limit + i] == k && NEWEST_FIRST(last, all[limit + i]);
      }
      if k in below {
        assert k in all && all == all[..limit] + all[limit..];
        FrontIsNotBelow(all, limit, k);
      }
    }
    Sorting.StrictIsUnique(below, all[limit..], NEWEST_FIRST);
  }

  /** Over an unchanging table the pages concatenate to the whole listing, for any page
      sizes, and the walk ends within one page per row and one more. */
  lemma {:induction false} PagesAreTheListing(table: Table, visits: seq<Visit>, cursor: Option<Key>)
    requires Sane(visits) && PrimaryKey(table)
    requires forall i :: 0 <= i < |visits| ==> visits[i].table == table
    ensures Follow(visits, cursor).ended ==> Follow(visits, cursor).keys == Listing(table, cursor)
    ensures |visits| > |Listing(table, cursor)| ==> Follow(visits, cursor).ended
    decreases |visits|
  {
    if visits == [] {
    } else {
      var all := Listing(table, cursor);
      var limit := visits[0].limit;
      PageIsFront(table, cursor, limit);
      if |all| > limit {
        RestOfListing(table, cursor, limit);
        PagesAreTheListing(table, visits[1..], Some(all[limit - 1]));
        assert all == all[..limit] + all[limit..];
      }
    }
  }

  // ----- one page, in numbers -----

  /** A row a page may show: active, in scope, and strictly older than the cursor's row. */
  predicate Due(row: Row, cursor: Option<Key>) {
    && row.active && row.inScope
    && match cursor
       case None => true
       case Some(last) =>
         row.key.createdAt < last.createdAt || (row.key.createdAt == last.createdAt && row.key.id < last.id)
  }

  lemma DueIsVisible(table: Table, cursor: Option<Key>, row: Row)
    requires row in table && Due(row, cursor)
    ensures Visible(table, row.key) && (cursor.Some? ==> Before(row.key, cursor.value))
  {
    var i :| 0 <= i < |table| && table[i] == row;
    assert table[i].key == row.key;
  }

  lemma ListedAreDue(table: Table, cursor: Option<Key>, k: Key)
    requires PrimaryKey(table)
    ensures k in Listing(table, cursor) <==> exists row :: row in table && row.key == k && Due(row, cursor)
  {
    ListingIsExact(table, cursor);
    if k in Listing(table, cursor) {
      assert Visible(table, k);
      var i :| 0 <= i < |table| && table[i].key == k && table[i].active && table[i].inScope;
      assert table[i] in table && Due(table[i], cursor);
    }
    if row :| row in table && row.key == k && Due(row, cursor) {
      DueIsVisible(table, cursor, row);
    }
  }

  /** Newest first, in numbers. */
  predicate Descending(keys: seq<Key>) {
    forall i, j :: 0 <= i < j < |keys| ==>
      keys[j].createdAt < keys[i].createdAt || (keys[j].createdAt == keys[i].createdAt && keys[j].id < keys[i].id)
  }

  lemma StrictDescends(keys: seq<Key>)
    requires Sorting.Strict(keys, NEWEST_FIRST)
    ensures Descending(keys)
  {
    forall i, j | 0 <= i < j < |keys|
      ensures keys[j].createdAt < keys[i].createdAt
              || (keys[j].createdAt == keys[i].createdAt && keys[j].id < keys[i].id)
    {
      assert NEWEST_FIRST(keys[i], keys[j]) && !NEWEST_FIRST(keys[j], keys[i]);
    }
  }

  /** A due row that is not on the page is older than the page's last. */
  lemma MissingIsOlder(table: Table, cursor: Option<Key>, limit: nat, row: Row)
    requires PrimaryKey(table) && limit > 0
    requires row in table && Due(row, cursor) && row.key !in ListPage(table, cursor, limit).items
    ensures ListPage(table, cursor, limit).nextCursor.Some? && Due(row, ListPage(table, cursor, limit).nextCursor)
  {
    ListingIsExact(table, cursor);
    PageIsFront(table, cursor, limit);
    ListedAreDue(table, cursor, row.key);
    LaterIsBelow(Listing(table, cursor), limit, row.key);
  }

  lemma SomethingIsMissing(table: Table, cursor: Option<Key>, limit: nat)
    requires PrimaryKey(table) && limit > 0 && ListPage(table, cursor, limit).nextCursor.Some?
    ensures exists row :: row in table && Due(row, cursor) && row.key !in ListPage(table, cursor, limit).items
  {
    var all := Listing(table, cursor);
    ListingIsExact(table, cursor);
    PageIsFront(table, cursor, limit);
    var k := all[limit];
    assert k in all;
    ListedAreDue(table, cursor, k);
    var row :| row in table && row.key == k && Due(row, cursor);
    assert NEWEST_FIRST(all[limit - 1], k) && !NEWEST_FIRST(k, all[limit - 1]);
    FrontIsNotBelow(all, limit, k);
  }

  /** A page holds at most `limit` rows, all due, newest first.  There is a next cursor
      exactly when a due row is not on the page; then the page is full, the cursor names
      its last row, and exactly the due rows older than that one are missing. */
  lemma PageIsDecided(table: Table, cursor: Option<Key>, limit: nat)
    requires PrimaryKey(table) && limit > 0
    ensures var page := ListPage(table, cursor, limit);
            && |page.items| <= limit && Descending(page.items)
            && (forall k :: k in page.items ==> exists row :: row in table && row.key == k && Due(row, cursor))
            && (page.nextCursor.Some? <==>
                  exists row :: row in table && Due(row, cursor) && row.key !in page.items)
            && (page.nextCursor.Some? ==>
                  |page.items| == limit && page.nextCursor.value == page.items[limit - 1])
            && (forall row :: row in table && Due(row, cursor) && row.key !in page.items ==>
                  Due(row, page.nextCursor))
  {
    var page := ListPage(table, cursor, limit);
    PageIsFront(table, cursor, limit);
    PageInOrder(table, cursor, limit);
    StrictDescends(page.items);
    forall k | k in page.items
      ensures exists row :: row in table && row.key == k && Due(row, cursor)
    {
      assert k in Listing(table, cursor);
      ListedAreDue(table, cursor, k);
    }
    forall row | row in table && Due(row, cursor) && row.key !in page.items
      ensures page.nextCursor.Some? && Due(row, page.nextCursor)
    {
      MissingIsOlder(table, cursor, limit, row);
    }
    if page.nextCursor.Some? {
      SomethingIsMissing(table, cursor, limit);
    }
  }
}
