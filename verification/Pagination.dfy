/**
 Keyset pagination over (created_at desc, id desc): opaque cursors, look-ahead pages, and
 the client that drains them.
 */
module Pagination {
  import opened Wrappers
  import opened TextOrder

  /** `createdAt` is the timestamp at full precision. */
  datatype Key = Key(createdAt: int, id: string)
  datatype Row = Row(key: Key, item: string)

  /* ---------- cursors ---------- */

  /** How the database prints a timestamp and reads it back. */
  datatype Clock = Clock(show: int -> string, parse: string -> Option<int>) {
    ghost predicate Faithful() { forall t :: parse(show(t)) == Some(t) }
  }

  predicate IsHex(c: char) { '0' <= c <= '9' || 'a' <= c <= 'f' || 'A' <= c <= 'F' }

  predicate IsUuid(id: string) {
    |id| == 36 && forall k :: 0 <= k < 36 ==> if k in {8, 13, 18, 23} then id[k] == '-' else IsHex(id[k])
  }

  function EncodeCursor(clock: Clock, key: Key): string {
    clock.show(key.createdAt) + "|" + key.id
  }

  function LastIndexOf(s: string, c: char): (r: Option<nat>)
    ensures r.Some? ==> r.value < |s| && s[r.value] == c && c !in s[r.value + 1..]
    ensures r.None? ==> c !in s
  {
    if s == "" then None
    else if s[|s| - 1] == c then Some(|s| - 1)
    else
      var r := LastIndexOf(s[..|s| - 1], c);
      assert r.Some? ==> s[r.value + 1..] == s[..|s| - 1][r.value + 1..] + [s[|s| - 1]];
      r
  }

  function DecodeCursor(clock: Clock, raw: string): Option<Key> {
    var separator := LastIndexOf(raw, '|');
    if separator.None? then None
    else
      var createdAt, id := clock.parse(raw[..separator.value]), raw[separator.value + 1..];
      if createdAt.None? || !IsUuid(id) then None else Some(Key(createdAt.value, id))
  }

  lemma {:induction false} SeparatorFound(text: string, id: string)
    requires '|' !in id
    ensures LastIndexOf(text + "|" + id, '|') == Some(|text|)
    decreases |id|
  {
    var s := text + "|" + id;
    if id != "" {
      var n := |id| - 1;
      assert s[..|s| - 1] == text + "|" + id[..n] && s[|s| - 1] == id[n];
      SeparatorFound(text, id[..n]);
    }
  }

  /** A cursor reads back as the key it was made from, whatever characters the timestamp has. */
  lemma CursorRoundTrip(clock: Clock, key: Key)
    requires clock.Faithful() && IsUuid(key.id)
    ensures DecodeCursor(clock, EncodeCursor(clock, key)) == Some(key)
  {
    var text := clock.show(key.createdAt);
    var raw := EncodeCursor(clock, key);
    SeparatorFound(text, key.id);
    assert raw[..|text|] == text && raw[|text| + 1..] == key.id;
  }

  /** Only what has a readable timestamp, a separator and an id decodes. */
  lemma DecodedParts(clock: Clock, raw: string, key: Key)
    requires DecodeCursor(clock, raw) == Some(key)
    ensures exists text: string :: raw == text + "|" + key.id && clock.parse(text) == Some(key.createdAt) && IsUuid(key.id)
  {
    var k := LastIndexOf(raw, '|').value;
    assert raw == raw[..k] + "|" + raw[k + 1..];
  }

  /** A text decodes to a key exactly if it is a readable timestamp, the separator and the key's id. */
  lemma DecodesExactly(clock: Clock, raw: string, key: Key)
    ensures DecodeCursor(clock, raw) == Some(key) <==> exists text: string :: IsCursor(clock, raw, key, text)
  {
    if DecodeCursor(clock, raw) == Some(key) {
      DecodedParts(clock, raw, key);
      var text: string :| raw == text + "|" + key.id && clock.parse(text) == Some(key.createdAt) && IsUuid(key.id);
      assert IsCursor(clock, raw, key, text);
    }
    if text: string :| IsCursor(clock, raw, key, text) { CursorDecoded(clock, raw, key, text); }
  }

  predicate IsCursor(clock: Clock, raw: string, key: Key, text: string) {
    raw == text + "|" + key.id && clock.parse(text) == Some(key.createdAt) && IsUuid(key.id)
  }

  lemma CursorDecoded(clock: Clock, raw: string, key: Key, text: string)
    requires IsCursor(clock, raw, key, text)
    ensures DecodeCursor(clock, raw) == Some(key)
  {
    SeparatorFound(text, key.id);
    assert raw[..|text|] == text && raw[|text| + 1..] == key.id;
  }

  /* ---------- the sort and the keyset predicate ---------- */

  /** `a` comes first under created_at desc, id desc. */
  predicate Ahead(a: Key, b: Key) {
    a.createdAt > b.createdAt || (a.createdAt == b.createdAt && Before(b.id, a.id))
  }

  lemma AheadTotal(a: Key, b: Key)
    requires a != b
    ensures Ahead(a, b) <==> !Ahead(b, a)
  {
    BeforeTotal(a.id, b.id);
    if Before(a.id, b.id) { BeforeAsymmetric(a.id, b.id); }
    if Before(b.id, a.id) { BeforeAsymmetric(b.id, a.id); }
  }

  lemma AheadAsymmetric(a: Key, b: Key)
    ensures !(Ahead(a, b) && Ahead(b, a))
  {
    if a != b { AheadTotal(a, b); } else if Before(a.id, a.id) { BeforeAsymmetric(a.id, a.id); }
  }

  lemma AheadTransitive(a: Key, b: Key, c: Key)
    requires Ahead(a, b) && Ahead(b, c)
    ensures Ahead(a, c)
  {
    if a.createdAt == b.createdAt == c.createdAt { BeforeTransitive(c.id, b.id, a.id); }
  }

  predicate Sorted(s: seq<Row>) {
    forall i, j :: 0 <= i < j < |s| ==> Ahead(s[i].key, s[j].key)
  }

  function Insert(r: Row, s: seq<Row>): seq<Row> {
    if s == [] then [r]
    else if Ahead(r.key, s[0].key) then [r] + s
    else [s[0]] + Insert(r, s[1..])
  }

  /** ORDER BY created_at DESC, id DESC. */
  function SortRows(table: seq<Row>): seq<Row> {
    if table == [] then [] else Insert(table[0], SortRows(table[1..]))
  }

  /** WHERE (created_at, id) < cursor; no cursor keeps every row. */
  function Following(s: seq<Row>, cursor: Option<Key>): seq<Row> {
    if s == [] then []
    else
      var rest := Following(s[1..], cursor);
      if cursor.Some? ==> Ahead(cursor.value, s[0].key) then [s[0]] + rest else rest
  }

  function Take(s: seq<Row>, n: nat): seq<Row> { if n < |s| then s[..n] else s }

  /** The rows a query for a page fetches. */
  function Query(table: seq<Row>, cursor: Option<Key>, n: nat): seq<Row> {
    Take(SortRows(Following(table, cursor)), n)
  }

  predicate DistinctKeys(table: seq<Row>) {
    forall i, j :: 0 <= i < j < |table| ==> table[i].key != table[j].key
  }

  lemma {:induction false} InsertSorted(r: Row, s: seq<Row>)
    requires Sorted(s) && forall k :: 0 <= k < |s| ==> s[k].key != r.key
    ensures Sorted(Insert(r, s)) && multiset(Insert(r, s)) == multiset(s) + multiset{r}
  {
    if s == [] {
    } else if Ahead(r.key, s[0].key) {
      forall k | 0 < k < |s| ensures Ahead(r.key, s[k].key) { AheadTransitive(r.key, s[0].key, s[k].key); }
      assert multiset([r] + s) == multiset{r} + multiset(s);
    } else {
      var rest := Insert(r, s[1..]);
      InsertSorted(r, s[1..]);
      AheadTotal(r.key, s[0].key);
      forall k | 0 <= k < |rest| ensures Ahead(s[0].key, rest[k].key) {
        assert rest[k] in multiset(rest);
        if rest[k] != r {
          assert rest[k] in multiset(s[1..]);
          var j :| 0 <= j < |s[1..]| && s[1..][j] == rest[k];
          assert s[j + 1] == rest[k];
        }
      }
      assert s == [s[0]] + s[1..];
      assert multiset([s[0]] + rest) == multiset{s[0]} + multiset(rest);
    }
  }

  /** The sort is a sort: a permutation of the table, in strict order. */
  lemma {:induction false} SortSorts(table: seq<Row>)
    requires DistinctKeys(table)
    ensures Sorted(SortRows(table)) && multiset(SortRows(table)) == multiset(table)
  {
    if table != [] {
      var rest := SortRows(table[1..]);
      SortSorts(table[1..]);
      forall k | 0 <= k < |rest| ensures rest[k].key != table[0].key {
        assert rest[k] in multiset(rest);
        assert rest[k] in multiset(table[1..]);
        var j :| 0 <= j < |table[1..]| && table[1..][j] == rest[k];
        assert table[j + 1] == rest[k];
      }
      InsertSorted(table[0], rest);
      assert table == [table[0]] + table[1..];
    }
  }

  /* ---------- the keyset predicate cuts the sorted table ---------- */

  lemma {:induction false} FollowingIn(s: seq<Row>, cursor: Option<Key>)
    ensures forall r :: r in Following(s, cursor) ==> r in s && (cursor.Some? ==> Ahead(cursor.value, r.key))
  {
    if s != [] { FollowingIn(s[1..], cursor); }
  }

  /** Filtering commutes with inserting into a sorted sequence. */
  lemma {:induction false} FollowingInsert(r: Row, s: seq<Row>, cursor: Option<Key>)
    requires Sorted(s)
    ensures Following(Insert(r, s), cursor) ==
            if cursor.Some? ==> Ahead(cursor.value, r.key) then Insert(r, Following(s, cursor)) else Following(s, cursor)
  {
    if s == [] {
      assert [r][1..] == [];
    } else if Ahead(r.key, s[0].key) {
      assert ([r] + s)[1..] == s;
      FollowingIn(s, cursor);
      if Following(s, cursor) != [] {
        var f := Following(s, cursor)[0];
        assert f in s;
        var k :| 0 <= k < |s| && s[k] == f;
        if k > 0 { AheadTransitive(r.key, s[0].key, f.key); }
      }
    } else {
      var rest := Insert(r, s[1..]);
      assert ([s[0]] + rest)[1..] == rest;
      FollowingInsert(r, s[1..], cursor);
      var f := Following(s[1..], cursor);
      assert ([s[0]] + f)[1..] == f;
    }
  }

  lemma {:induction false} SortFollowing(table: seq<Row>, cursor: Option<Key>)
    requires DistinctKeys(table)
    ensures SortRows(Following(table, cursor)) == Following(SortRows(table), cursor)
  {
    if table != [] {
      SortSorts(table[1..]);
      SortFollowing(table[1..], cursor);
      FollowingInsert(table[0], SortRows(table[1..]), cursor);
      var f := Following(table[1..], cursor);
      assert ([table[0]] + f)[1..] == f;
    }
  }

  lemma {:induction false} FollowingAll(s: seq<Row>, cursor: Option<Key>)
    requires forall k :: 0 <= k < |s| ==> cursor.Some? ==> Ahead(cursor.value, s[k].key)
    ensures Following(s, cursor) == s
  {
    if s != [] { FollowingAll(s[1..], cursor); }
  }

  /** After the key of row `k`, the rows from `k + 1` on are left. */
  lemma {:induction false} FollowingRow(s: seq<Row>, k: nat)
    requires Sorted(s) && k < |s|
    ensures Following(s, Some(s[k].key)) == s[k + 1..]
  {
    if k == 0 {
      AheadAsymmetric(s[0].key, s[0].key);
      FollowingAll(s[1..], Some(s[0].key));
    } else {
      AheadAsymmetric(s[0].key, s[k].key);
      FollowingRow(s[1..], k - 1);
    }
  }

  /** A page after row `k - 1` is a slice of the sorted table. */
  lemma QueryIsSlice(table: seq<Row>, k: nat, n: nat)
    requires DistinctKeys(table) && k <= |SortRows(table)|
    ensures Query(table, KeyAt(SortRows(table), k), n) == Take(SortRows(table)[k..], n)
  {
    var s := SortRows(table);
    SortSorts(table);
    if k == 0 {
      FollowingAll(table, None);
    } else {
      SortFollowing(table, Some(s[k - 1].key));
      FollowingRow(s, k - 1);
    }
  }

  /* ---------- pages ---------- */

  datatype Page = Page(items: seq<Row>, nextCursor: Option<string>)

  function BuildLookaheadNextCursor(clock: Clock, rows: seq<Row>, limit: nat): Option<string>
    requires limit >= 1
  {
    if |rows| <= limit then None else Some(EncodeCursor(clock, rows[limit - 1].key))
  }

  /** The answer to `?limit=&cursor=`; a cursor that does not decode is refused. */
  function ServePage(clock: Clock, table: seq<Row>, cursor: Option<string>, limit: nat): Option<Page>
    requires limit >= 1
  {
    var key := if cursor.Some? then DecodeCursor(clock, cursor.value) else None;
    if cursor.Some? && key.None? then None
    else
      var rows := Query(table, key, limit + 1);
      Some(Page(Take(rows, limit), BuildLookaheadNextCursor(clock, rows, limit)))
  }

  predicate UuidRows(table: seq<Row>) { forall k :: 0 <= k < |table| ==> IsUuid(table[k].key.id) }

  /** The cursor a client holds after `k` rows of the sorted table. */
  function CursorAt(clock: Clock, s: seq<Row>, k: nat): Option<string>
    requires k <= |s|
  {
    if k == 0 then None else Some(EncodeCursor(clock, s[k - 1].key))
  }

  function Least(a: int, b: int): int { if a < b then a else b }

  lemma SortedUuids(table: seq<Row>)
    requires DistinctKeys(table) && UuidRows(table)
    ensures UuidRows(SortRows(table)) && |SortRows(table)| == |table|
  {
    var s := SortRows(table);
    SortSorts(table);
    assert |multiset(s)| == |multiset(table)|;
    forall k | 0 <= k < |s| ensures IsUuid(s[k].key.id) {
      assert s[k] in multiset(s);
      assert s[k] in multiset(table);
    }
  }

  /** What look-ahead makes of the rows after position `k`. */
  lemma LookaheadPage(clock: Clock, s: seq<Row>, k: nat, limit: nat)
    requires limit >= 1 && k <= |s|
    ensures var rows, m := Take(s[k..], limit + 1), Least(k + limit, |s|);
      && Take(rows, limit) == s[k..m]
      && BuildLookaheadNextCursor(clock, rows, limit) == if m < |s| then CursorAt(clock, s, m) else None
  {
    var rows := Take(s[k..], limit + 1);
    assert |rows| > limit ==> rows[limit - 1] == s[k + limit - 1];
  }

  lemma CursorDecodes(clock: Clock, s: seq<Row>, k: nat)
    requires clock.Faithful() && UuidRows(s) && 0 < k <= |s|
    ensures DecodeCursor(clock, CursorAt(clock, s, k).value) == Some(s[k - 1].key)
  {
    CursorRoundTrip(clock, s[k - 1].key);
  }

  lemma ServedFrom(clock: Clock, table: seq<Row>, cursor: Option<string>, key: Option<Key>, s: seq<Row>, k: nat, limit: nat)
    requires limit >= 1 && k <= |s| && Query(table, key, limit + 1) == Take(s[k..], limit + 1)
    requires if cursor.None? then key.None? else key.Some? && DecodeCursor(clock, cursor.value) == key
    ensures var m := Least(k + limit, |s|);
      ServePage(clock, table, cursor, limit) == Some(Page(s[k..m], if m < |s| then CursorAt(clock, s, m) else None))
  {
    LookaheadPage(clock, s, k, limit);
  }

  lemma SliceServed(clock: Clock, table: seq<Row>, s: seq<Row>, k: nat, limit: nat)
    requires clock.Faithful() && UuidRows(s) && limit >= 1 && k <= |s|
    requires Query(table, KeyAt(s, k), limit + 1) == Take(s[k..], limit + 1)
    ensures var m := Least(k + limit, |s|);
      ServePage(clock, table, CursorAt(clock, s, k), limit) ==
        Some(Page(s[k..m], if m < |s| then CursorAt(clock, s, m) else None))
  {
    if k > 0 {
      CursorDecodes(clock, s, k);
      ServedFrom(clock, table, CursorAt(clock, s, k), Some(s[k - 1].key), s, k, limit);
    } else {
      ServedFrom(clock, table, None, None, s, 0, limit);
    }
  }

  function KeyAt(s: seq<Row>, k: nat): Option<Key>
    requires k <= |s|
  {
    if k == 0 then None else Some(s[k - 1].key)
  }

  /** Every query of the table, from any position of `s`, is a slice of `s`. */
  ghost predicate Lists(table: seq<Row>, s: seq<Row>) {
    && Sorted(s) && UuidRows(s)
    && forall k: nat, n: nat :: k <= |s| ==> Query(table, KeyAt(s, k), n) == Take(s[k..], n)
  }

  lemma SortLists(table: seq<Row>)
    requires DistinctKeys(table) && UuidRows(table)
    ensures Lists(table, SortRows(table))
  {
    SortSorts(table);
    SortedUuids(table);
    var s := SortRows(table);
    forall k: nat, n: nat | k <= |s| ensures Query(table, KeyAt(s, k), n) == Take(s[k..], n) {
      QueryIsSlice(table, k, n);
    }
  }

  /** From any position a page brings the next rows of the sorted table, and a cursor unless none are left. */
  lemma PageIsNext(clock: Clock, table: seq<Row>, s: seq<Row>, k: nat, limit: nat)
    requires clock.Faithful() && Lists(table, s) && limit >= 1 && k <= |s|
    ensures var m := Least(k + limit, |s|);
      ServePage(clock, table, CursorAt(clock, s, k), limit) ==
        Some(Page(s[k..m], if m < |s| then CursorAt(clock, s, m) else None))
  {
    SliceServed(clock, table, s, k, limit);
  }

  lemma CursorsDiffer(clock: Clock, s: seq<Row>, j: nat, k: nat)
    requires clock.Faithful() && Sorted(s) && UuidRows(s) && 0 < j < k <= |s|
    ensures CursorAt(clock, s, j) != CursorAt(clock, s, k)
  {
    CursorRoundTrip(clock, s[j - 1].key);
    CursorRoundTrip(clock, s[k - 1].key);
    AheadAsymmetric(s[j - 1].key, s[k - 1].key);
  }

  /** The cursors seen are those of positions passed. */
  ghost predicate SeenUpTo(clock: Clock, s: seq<Row>, seen: set<string>, k: nat)
    requires k <= |s|
  {
    forall c :: c in seen ==> exists j :: 0 < j <= k && CursorAt(clock, s, j) == Some(c)
  }

  lemma NextIsNew(clock: Clock, s: seq<Row>, seen: set<string>, k: nat, m: nat)
    requires clock.Faithful() && Sorted(s) && UuidRows(s) && k < m <= |s| && SeenUpTo(clock, s, seen, k)
    ensures CursorAt(clock, s, m).value !in seen
    ensures SeenUpTo(clock, s, seen + {CursorAt(clock, s, m).value}, m)
  {
    forall j | 0 < j <= k ensures CursorAt(clock, s, j) != CursorAt(clock, s, m) {
      CursorsDiffer(clock, s, j, m);
    }
  }

  datatype Drained = Items(items: seq<Row>) | CursorRepeated | Refused

  /** One request, from position `k` of what the table lists. */
  method RequestPage(clock: Clock, table: seq<Row>, cursor: Option<string>, limit: nat, ghost s: seq<Row>, ghost k: nat)
    returns (page: Option<Page>)
    requires clock.Faithful() && Lists(table, s) && limit >= 1 && k <= |s| && cursor == CursorAt(clock, s, k)
    ensures page.Some? && page.value.items == s[k..Least(k + limit, |s|)]
    ensures page.value.nextCursor.Some? <==> k + limit < |s|
    ensures page.value.nextCursor.Some? ==> page.value.nextCursor == CursorAt(clock, s, k + limit)
  {
    PageIsNext(clock, table, s, k, limit);
    page := ServePage(clock, table, cursor, limit);
  }

  /** The loop over pages: it ends, no cursor comes twice, and the items are all that `s` lists. */
  method FollowCursors(clock: Clock, table: seq<Row>, limit: nat, ghost s: seq<Row>) returns (result: Drained)
    requires clock.Faithful() && Lists(table, s) && limit >= 1
    ensures result == Items(s)
  {
    var items: seq<Row>, seen: set<string>, cursor: Option<string> := [], {}, None;
    while true
      invariant |items| <= |s| && items == s[..|items|] && (|items| == 0 || |items| < |s|)
      invariant cursor == CursorAt(clock, s, |items|) && SeenUpTo(clock, s, seen, |items|)
      decreases |s| - |items|
    {
      ghost var k, m := |items|, Least(|items| + limit, |s|);
      var page := RequestPage(clock, table, cursor, limit, s, k);
      if page.None? { return Refused; }
      items := items + page.value.items;
      assert items == s[..m];
      if page.value.nextCursor.None? { break; }
      var next := page.value.nextCursor.value;
      NextIsNew(clock, s, seen, k, m);
      if next in seen { return CursorRepeated; }
      seen := seen + {next};
      cursor := Some(next);
    }
    return Items(items);
  }

  /** Newest first, and among rows of one instant the higher id first. */
  predicate NewestFirst(s: seq<Row>) {
    forall i, j :: 0 <= i < j < |s| ==>
      s[i].key.createdAt > s[j].key.createdAt || (s[i].key.createdAt == s[j].key.createdAt && Before(s[j].key.id, s[i].key.id))
  }

  /** Draining a fixed table yields all of it, in order. */
  method FetchAllCursorItems(clock: Clock, table: seq<Row>, limit: nat) returns (result: Drained)
    requires clock.Faithful() && DistinctKeys(table) && UuidRows(table) && limit >= 1
    ensures result == Items(SortRows(table))
    ensures multiset(result.items) == multiset(table) && NewestFirst(result.items)
  {
    SortLists(table);
    SortSorts(table);
    result := FollowCursors(clock, table, limit, SortRows(table));
  }
}
