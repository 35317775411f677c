/** Draining a table that changes between the requests: nothing that stays is skipped, nothing comes twice. */
module PaginationChanges {
  import opened Wrappers
  import opened Pagination

  predicate HasKey(rows: seq<Row>, key: Key) { exists k :: 0 <= k < |rows| && rows[k].key == key }

  /** The key comes after the position, which is before every row if there is none. */
  predicate Beyond(after: Option<Key>, key: Key) { after.Some? ==> Ahead(after.value, key) }

  /* ---------- one page of one table ---------- */

  lemma {:induction false} FollowingHas(s: seq<Row>, after: Option<Key>, r: Row)
    requires r in s && Beyond(after, r.key)
    ensures r in Following(s, after)
  {
    if r != s[0] { FollowingHas(s[1..], after, r); }
  }

  lemma {:induction false} FollowingDistinct(s: seq<Row>, after: Option<Key>)
    requires DistinctKeys(s)
    ensures DistinctKeys(Following(s, after))
  {
    if s != [] {
      var rest := Following(s[1..], after);
      FollowingDistinct(s[1..], after);
      FollowingIn(s[1..], after);
      forall k | 0 <= k < |rest| ensures rest[k].key != s[0].key {
        assert rest[k] in s[1..];
        var j :| 0 <= j < |s[1..]| && s[1..][j] == rest[k];
        assert s[j + 1] == rest[k];
      }
    }
  }

  lemma SameElements(s: seq<Row>, t: seq<Row>, r: Row)
    requires multiset(s) == multiset(t)
    ensures r in s <==> r in t
  {
    assert r in s <==> r in multiset(s);
    assert r in t <==> r in multiset(t);
  }

  /** The rows beyond the position, in order. */
  lemma RowsBeyond(table: seq<Row>, after: Option<Key>, s: seq<Row>)
    requires DistinctKeys(table) && s == SortRows(Following(table, after))
    ensures Sorted(s)
    ensures forall r :: r in s <==> r in table && Beyond(after, r.key)
  {
    var f := Following(table, after);
    FollowingDistinct(table, after);
    SortSorts(f);
    FollowingIn(table, after);
    forall r ensures r in s <==> r in table && Beyond(after, r.key) {
      SameElements(s, f, r);
      if r in table && Beyond(after, r.key) { FollowingHas(table, after, r); }
    }
  }

  /** What a page of the present table is: sorted, beyond the position, and without a gap up to where it ends. */
  ghost predicate Covers(table: seq<Row>, after: Option<Key>, page: seq<Row>, last: bool) {
    && Sorted(page)
    && (forall r :: r in page ==> r in table && Beyond(after, r.key))
    && (if last then forall r :: r in table && Beyond(after, r.key) ==> r in page
        else page != [] && forall r :: r in table && Beyond(after, r.key) && !Ahead(page[|page| - 1].key, r.key) ==> r in page)
  }

  lemma PageCovers(table: seq<Row>, after: Option<Key>, limit: nat)
    requires DistinctKeys(table) && limit >= 1
    ensures var rows := Query(table, after, limit + 1); Covers(table, after, Take(rows, limit), |rows| <= limit)
  {
    var s := SortRows(Following(table, after));
    RowsBeyond(table, after, s);
    var rows := Take(s, limit + 1);
    var page := Take(rows, limit);
    assert forall k :: 0 <= k < |page| ==> page[k] == s[k];
    if |rows| <= limit {
      assert page == s;
    } else {
      forall r | r in table && Beyond(after, r.key) && !Ahead(page[limit - 1].key, r.key) ensures r in page {
        assert r in s;
        var j :| 0 <= j < |s| && s[j] == r;
        assert j < limit;
        assert page[j] == r;
      }
    }
  }

  /* ---------- the rows collected so far ---------- */

  /**
   After requests to `tables`: the items are in strict order and end at the position, and every key that was in all of
   these tables and is not beyond the position is among them.
   */
  ghost predicate Collected(tables: seq<seq<Row>>, items: seq<Row>, after: Option<Key>) {
    && Sorted(items)
    && (if after.None? then items == [] else items != [] && items[|items| - 1].key == after.value)
    && (forall key :: InAll(tables, key) && !Beyond(after, key) ==> HasKey(items, key))
  }

  ghost predicate InAll(tables: seq<seq<Row>>, key: Key) {
    forall i :: 0 <= i < |tables| ==> HasKey(tables[i], key)
  }

  /** All that stayed, each once and in order. */
  ghost predicate Complete(tables: seq<seq<Row>>, items: seq<Row>) {
    Sorted(items) && forall key :: InAll(tables, key) ==> HasKey(items, key)
  }

  lemma SortedAppend(items: seq<Row>, page: seq<Row>, after: Option<Key>)
    requires Sorted(items) && Sorted(page) && (forall r :: r in page ==> Beyond(after, r.key))
    requires if after.None? then items == [] else items != [] && items[|items| - 1].key == after.value
    ensures Sorted(items + page)
  {
    var all := items + page;
    forall i, j | 0 <= i < j < |all| ensures Ahead(all[i].key, all[j].key) {
      if i < |items| && |items| <= j {
        assert page[j - |items|] in page;
        if i < |items| - 1 { AheadTransitive(items[i].key, after.value, all[j].key); }
      }
    }
  }

  lemma KeyAppended(items: seq<Row>, page: seq<Row>, key: Key)
    requires HasKey(items, key) || HasKey(page, key)
    ensures HasKey(items + page, key)
  {
    if HasKey(items, key) {
      var k :| 0 <= k < |items| && items[k].key == key;
      assert (items + page)[k].key == key;
    } else {
      var k :| 0 <= k < |page| && page[k].key == key;
      assert (items + page)[|items| + k].key == key;
    }
  }

  lemma LastTable(tables: seq<seq<Row>>, table: seq<Row>, key: Key)
    requires InAll(tables + [table], key)
    ensures InAll(tables, key) && HasKey(table, key)
  {
    var all := tables + [table];
    assert HasKey(all[|tables|], key);
    forall i | 0 <= i < |tables| ensures HasKey(tables[i], key) { assert HasKey(all[i], key) && all[i] == tables[i]; }
  }

  /** One more page, whatever table it was served from, keeps what was collected without gaps. */
  lemma OneMorePage(tables: seq<seq<Row>>, table: seq<Row>, items: seq<Row>, after: Option<Key>, page: seq<Row>, last: bool)
    requires Collected(tables, items, after) && Covers(table, after, page, last)
    ensures last ==> Complete(tables + [table], items + page)
    ensures !last ==> Collected(tables + [table], items + page, Some(page[|page| - 1].key))
  {
    SortedAppend(items, page, after);
    forall key | InAll(tables + [table], key) && (last || !Ahead(page[|page| - 1].key, key)) ensures HasKey(items + page, key) {
      LastTable(tables, table, key);
      if Beyond(after, key) {
        var k :| 0 <= k < |table| && table[k].key == key;
        assert table[k] in page;
        var j :| 0 <= j < |page| && page[j] == table[k];
        assert page[j].key == key;
      }
      KeyAppended(items, page, key);
    }
  }

  /* ---------- the loop ---------- */

  /** The cursors seen are those of keys not beyond the position. */
  ghost predicate SeenBefore(clock: Clock, seen: set<string>, after: Option<Key>) {
    forall c :: c in seen ==> after.Some? && exists key :: PassedKey(clock, c, key, after.value)
  }

  predicate PassedKey(clock: Clock, c: string, key: Key, position: Key) {
    c == EncodeCursor(clock, key) && IsUuid(key.id) && !Ahead(position, key)
  }

  lemma CursorAdvances(clock: Clock, seen: set<string>, after: Option<Key>, next: Key)
    requires clock.Faithful() && SeenBefore(clock, seen, after) && IsUuid(next.id) && Beyond(after, next)
    ensures EncodeCursor(clock, next) !in seen
    ensures SeenBefore(clock, seen + {EncodeCursor(clock, next)}, Some(next))
  {
    CursorRoundTrip(clock, next);
    AheadAsymmetric(next, next);
    assert PassedKey(clock, EncodeCursor(clock, next), next, next);
    forall c | c in seen
      ensures c != EncodeCursor(clock, next) && exists key :: PassedKey(clock, c, key, next)
    {
      var key :| PassedKey(clock, c, key, after.value);
      CursorRoundTrip(clock, key);
      if Ahead(next, key) { AheadTransitive(after.value, next, key); }
      assert PassedKey(clock, c, key, next);
    }
  }

  /** The cursor leads back to the position. */
  predicate Holds(clock: Clock, cursor: Option<string>, after: Option<Key>) {
    && cursor.Some? == after.Some?
    && (after.Some? ==> IsUuid(after.value.id) && cursor.value == EncodeCursor(clock, after.value))
  }

  /** A request with the cursor of a position is answered by the page beyond it. */
  lemma ServedBeyond(clock: Clock, table: seq<Row>, cursor: Option<string>, after: Option<Key>, limit: nat) returns (page: Page)
    requires clock.Faithful() && Holds(clock, cursor, after) && DistinctKeys(table) && UuidRows(table) && limit >= 1
    ensures ServePage(clock, table, cursor, limit) == Some(page)
    ensures Covers(table, after, page.items, page.nextCursor.None?)
    ensures page.nextCursor.Some? ==>
      var last := page.items[|page.items| - 1].key; Holds(clock, page.nextCursor, Some(last)) && Beyond(after, last)
  {
    ServedFor(clock, table, cursor, after, limit);
    PageCovers(table, after, limit);
    page := PageOfRows(clock, table, Query(table, after, limit + 1), after, limit);
  }

  lemma PageOfRows(clock: Clock, table: seq<Row>, rows: seq<Row>, after: Option<Key>, limit: nat) returns (page: Page)
    requires limit >= 1 && UuidRows(table) && Covers(table, after, Take(rows, limit), |rows| <= limit)
    ensures page == Page(Take(rows, limit), BuildLookaheadNextCursor(clock, rows, limit))
    ensures Covers(table, after, page.items, page.nextCursor.None?)
    ensures page.nextCursor.Some? ==>
      var last := page.items[|page.items| - 1].key; Holds(clock, page.nextCursor, Some(last)) && Beyond(after, last)
  {
    page := Page(Take(rows, limit), BuildLookaheadNextCursor(clock, rows, limit));
    if |rows| > limit { LastIsServed(clock, table, rows, after, limit); }
  }

  lemma ServedFor(clock: Clock, table: seq<Row>, cursor: Option<string>, after: Option<Key>, limit: nat)
    requires clock.Faithful() && Holds(clock, cursor, after) && limit >= 1
    ensures var rows := Query(table, after, limit + 1);
      ServePage(clock, table, cursor, limit) == Some(Page(Take(rows, limit), BuildLookaheadNextCursor(clock, rows, limit)))
  {
    if after.Some? { CursorRoundTrip(clock, after.value); }
  }

  lemma LastIsServed(clock: Clock, table: seq<Row>, rows: seq<Row>, after: Option<Key>, limit: nat)
    requires 1 <= limit < |rows| && UuidRows(table) && Covers(table, after, Take(rows, limit), false)
    ensures var last := Take(rows, limit)[limit - 1].key;
      Holds(clock, BuildLookaheadNextCursor(clock, rows, limit), Some(last)) && Beyond(after, last)
  {
    var r := Take(rows, limit)[limit - 1];
    assert r in Take(rows, limit) && r in table;
  }

  /** Where the loop stands after requests to `tables`. */
  ghost predicate Underway(clock: Clock, tables: seq<seq<Row>>, items: seq<Row>, after: Option<Key>, cursor: Option<string>,
                           seen: set<string>)
  {
    Collected(tables, items, after) && Holds(clock, cursor, after) && SeenBefore(clock, seen, after)
  }

  /** What one request brings: the end, complete, or a cursor not seen before and one more table behind. */
  lemma OneMoreRequest(clock: Clock, tables: seq<seq<Row>>, table: seq<Row>, items: seq<Row>, after: Option<Key>,
                       cursor: Option<string>, seen: set<string>, limit: nat)
    requires clock.Faithful() && Underway(clock, tables, items, after, cursor, seen)
    requires DistinctKeys(table) && UuidRows(table) && limit >= 1
    ensures ServePage(clock, table, cursor, limit).Some?
    ensures var page := ServePage(clock, table, cursor, limit).value;
      if page.nextCursor.None? then Complete(tables + [table], items + page.items)
      else
        && page.items != [] && page.nextCursor.value !in seen
        && Underway(clock, tables + [table], items + page.items, Some(page.items[|page.items| - 1].key), page.nextCursor,
                    seen + {page.nextCursor.value})
  {
    var page := ServedBeyond(clock, table, cursor, after, limit);
    OneMorePage(tables, table, items, after, page.items, page.nextCursor.None?);
    if page.nextCursor.Some? { CursorAdvances(clock, seen, after, page.items[|page.items| - 1].key); }
  }

  /**
   The client's loop when every request meets the table of its moment: no cursor is refused or comes twice, and once the
   last page is in, the items are in order and every row that was there throughout is among them, once.
   */
  method FollowChangingTable(clock: Clock, tables: seq<seq<Row>>, limit: nat) returns (result: Drained, used: nat, done: bool)
    requires clock.Faithful() && limit >= 1
    requires forall i :: 0 <= i < |tables| ==> DistinctKeys(tables[i]) && UuidRows(tables[i])
    ensures result.Items? && used <= |tables| && Sorted(result.items)
    ensures if done then Complete(tables[..used], result.items) else used == |tables|
  {
    var items: seq<Row>, seen: set<string>, cursor: Option<string> := [], {}, None;
    ghost var after: Option<Key> := None;
    used := 0;
    while used < |tables|
      invariant used <= |tables| && Underway(clock, tables[..used], items, after, cursor, seen)
    {
      OneMoreRequest(clock, tables[..used], tables[used], items, after, cursor, seen, limit);
      assert tables[..used] + [tables[used]] == tables[..used + 1];
      var page := ServePage(clock, tables[used], cursor, limit);
      if page.None? { return Refused, used, false; }
      items, used := items + page.value.items, used + 1;
      if page.value.nextCursor.None? { return Items(items), used, true; }
      if page.value.nextCursor.value in seen { return CursorRepeated, used, false; }
      after := Some(page.value.items[|page.value.items| - 1].key);
      seen, cursor := seen + {page.value.nextCursor.value}, page.value.nextCursor;
    }
    return Items(items), used, false;
  }

  /** In strict order no key comes twice. */
  lemma EachOnce(items: seq<Row>, i: nat, j: nat)
    requires Sorted(items) && i < |items| && j < |items| && items[i].key == items[j].key
    ensures i == j
  {
    AheadAsymmetric(items[i].key, items[j].key);
  }
}
