/**
  Cursor pages: `list_transactions` of `pos/api.py`, whose key is the unique transaction id, and
  `get_statement` of `bank/api.py`, whose key is the booking time.

  The rows are those that pass the caller's filters, by descending key, over data that does not
  change between pages; a cursor is the key of the last row seen.
*/
module Paging {
  import opened Arithmetic
  import opened Prelude

  datatype Row = Row(key: int, id: int)

  datatype Page = Page(items: seq<Row>, next: Option<int>)

  const MAX_LIMIT := 200

  ghost predicate Descending(rows: seq<Row>) {
    forall i, j | 0 <= i < j < |rows| :: rows[i].key >= rows[j].key
  }

  ghost predicate DistinctKeys(rows: seq<Row>) {
    forall i, j | 0 <= i < j < |rows| :: rows[i].key != rows[j].key
  }

  function Clamp(limit: int): (r: nat)
    ensures 1 <= limit <= 200 ==> r == limit
    ensures limit < 1 ==> r == 1
    ensures limit > 200 ==> r == 200
  {
    if limit < 1 then 1 else if limit > MAX_LIMIT then MAX_LIMIT else limit
  }

  predicate Passes(row: Row, cursor: Option<int>) {
    cursor.Some? ==> row.key < cursor.value
  }

  function Kept(row: Row, cursor: Option<int>): seq<Row> {
    if Passes(row, cursor) then [row] else []
  }

  /** The rows past the cursor. */
  function Past(rows: seq<Row>, cursor: Option<int>): (r: seq<Row>)
    ensures |r| <= |rows|
  {
    if rows == [] then [] else Kept(rows[0], cursor) + Past(rows[1..], cursor)
  }

  function PageOf(rows: seq<Row>, cursor: Option<int>, limit: int): Page {
    var past, n := Past(rows, cursor), Clamp(limit);
    if |past| > n then Page(past[..n], Some(past[n - 1].key)) else Page(past, None)
  }

  lemma PastFrom(rows: seq<Row>, cursor: Option<int>, k: nat)
    requires k < |rows|
    ensures Past(rows[k..], cursor) == Kept(rows[k], cursor) + Past(rows[k + 1..], cursor)
  {
    assert rows[k..][1..] == rows[k + 1..];
  }

  lemma PastEnds(rows: seq<Row>, cursor: Option<int>, k: nat)
    requires k <= |rows|
    ensures k == |rows| ==> Past(rows[k..], cursor) == []
    ensures k == 0 ==> Past(rows[k..], cursor) == Past(rows, cursor)
  {
    assert rows[0..] == rows;
  }

  lemma FetchedPage(rows: seq<Row>, cursor: Option<int>, limit: int, fetched: seq<Row>, rest: seq<Row>)
    requires fetched + rest == Past(rows, cursor)
    requires |fetched| == Clamp(limit) + 1 || (rest == [] && |fetched| <= Clamp(limit) + 1)
    ensures var n := Clamp(limit);
            PageOf(rows, cursor, limit) ==
              if |fetched| > n then Page(fetched[..n], Some(fetched[n - 1].key)) else Page(fetched, None)
  {
    hide Past, Clamp;
    assert Past(rows, cursor)[..|fetched|] == fetched;
    var n := Clamp(limit);
    if |fetched| > n {
      assert Past(rows, cursor)[..n] == fetched[..n];
    }
  }

  /**
    A page is the first rows past the cursor, as many as asked for but at least one and at most two
    hundred, and has a next cursor, the key of its last row, exactly if there are more.
  */
  lemma PageIs(rows: seq<Row>, cursor: Option<int>, limit: int)
    ensures var page, past := PageOf(rows, cursor, limit), Past(rows, cursor);
            var n := if limit < 1 then 1 else if limit > 200 then 200 else limit;
            && page.items == past[..if |past| > n then n else |past|]
            && page.next == if |past| > n then Some(past[n - 1].key) else None
  {
    hide Past;
  }

  /** One request: the query takes one row more than the page to see whether there is another. */
  method ListPage(rows: seq<Row>, cursor: Option<int>, limit: int) returns (items: seq<Row>, nextCursor: Option<int>)
    ensures Page(items, nextCursor) == PageOf(rows, cursor, limit)
  {
    hide Past, PageOf, Passes, Clamp;
    var n := Clamp(limit);
    items := [];
    var k := 0;
    PastEnds(rows, cursor, k);
    while k < |rows| && |items| < n + 1
      invariant 0 <= k <= |rows| && |items| <= n + 1
      invariant items + Past(rows[k..], cursor) == Past(rows, cursor)
    {
      PastFrom(rows, cursor, k);
      assert items + (Kept(rows[k], cursor) + Past(rows[k + 1..], cursor))
          == (items + Kept(rows[k], cursor)) + Past(rows[k + 1..], cursor);
      if Passes(rows[k], cursor) {
        items := items + [rows[k]];
      }
      k := k + 1;
    }
    PastEnds(rows, cursor, k);
    FetchedPage(rows, cursor, limit, items, Past(rows[k..], cursor));
    nextCursor := None;
    if |items| > n {
      items := items[..n];
      nextCursor := Some(items[n - 1].key);
    }
  }

  // ---- following the cursor ---------------------------------------------

  lemma {:induction false} PastPasses(rows: seq<Row>, cursor: Option<int>)
    ensures forall k | 0 <= k < |Past(rows, cursor)| :: Passes(Past(rows, cursor)[k], cursor)
    decreases |rows|
  {
    if rows != [] {
      PastPasses(rows[1..], cursor);
    }
  }

  lemma PrependWithin(x: Row, a: seq<Row>, b: seq<Row>)
    requires multiset(a) <= multiset(b)
    ensures multiset([x] + a) <= multiset([x] + b)
    ensures multiset(a) <= multiset([x] + b)
  {
    assert multiset([x] + a) == multiset{x} + multiset(a);
    assert multiset([x] + b) == multiset{x} + multiset(b);
  }

  lemma KeptIs(row: Row, cursor: Option<int>, rest: seq<Row>)
    ensures Kept(row, cursor) + rest == if Passes(row, cursor) then [row] + rest else rest
  {
  }

  lemma HeadTail(rows: seq<Row>)
    requires rows != []
    ensures rows == [rows[0]] + rows[1..]
  {
  }

  lemma {:induction false} PastWithin(rows: seq<Row>, cursor: Option<int>)
    ensures multiset(Past(rows, cursor)) <= multiset(rows)
    decreases |rows|
  {
    if rows != [] {
      PastStep(rows, cursor);
      hide *;
      var x, a, b := rows[0], Past(rows[1..], cursor), rows[1..];
      KeptIs(x, cursor, a);
      PastWithin(b, cursor);
      PrependWithin(x, a, b);
      HeadTail(rows);
    }
  }

  lemma ConcatTail(x: seq<Row>, y: seq<Row>)
    requires x != []
    ensures x + y != [] && (x + y)[0] == x[0] && (x + y)[1..] == x[1..] + y
  {
  }

  lemma Associates(x: seq<Row>, y: seq<Row>, z: seq<Row>)
    ensures (x + y) + z == x + (y + z)
  {
  }

  lemma PastNothing(cursor: Option<int>)
    ensures Past([], cursor) == []
  {
  }

  lemma NothingFirst(y: seq<Row>)
    ensures [] + y == y
  {
  }

  lemma {:induction false} PastConcat(x: seq<Row>, y: seq<Row>, cursor: Option<int>)
    ensures Past(x + y, cursor) == Past(x, cursor) + Past(y, cursor)
    decreases |x|
  {
    hide *;
    if x == [] {
      PastNothing(cursor);
      NothingFirst(y);
      NothingFirst(Past(y, cursor));
    } else {
      ConcatTail(x, y);
      PastStep(x + y, cursor);
      PastStep(x, cursor);
      PastConcat(x[1..], y, cursor);
      Associates(Kept(x[0], cursor), Past(x[1..], cursor), Past(y, cursor));
    }
  }

  lemma PastStep(rows: seq<Row>, cursor: Option<int>)
    requires rows != []
    ensures Past(rows, cursor) == Kept(rows[0], cursor) + Past(rows[1..], cursor)
  {
  }

  lemma {:induction false} PastAll(rows: seq<Row>, cursor: Option<int>)
    requires forall k | 0 <= k < |rows| :: Passes(rows[k], cursor)
    ensures Past(rows, cursor) == rows
    decreases |rows|
  {
    if rows != [] {
      PastAll(rows[1..], cursor);
    }
  }

  lemma {:induction false} PastNone(rows: seq<Row>, cursor: Option<int>)
    requires forall k | 0 <= k < |rows| :: !Passes(rows[k], cursor)
    ensures Past(rows, cursor) == []
    decreases |rows|
  {
    if rows != [] {
      PastNone(rows[1..], cursor);
    }
  }

  /** A tighter cursor filters what a looser one lets through. */
  lemma {:induction false} PastTwice(rows: seq<Row>, cursor: Option<int>, key: int)
    requires cursor.Some? ==> key <= cursor.value
    ensures Past(rows, Some(key)) == Past(Past(rows, cursor), Some(key))
    decreases |rows|
  {
    if rows != [] {
      PastTwice(rows[1..], cursor, key);
      PastConcat(Kept(rows[0], cursor), Past(rows[1..], cursor), Some(key));
    }
  }

  lemma {:induction false} PastAtMost(rows: seq<Row>, cursor: Option<int>, key: int)
    requires forall k | 0 <= k < |rows| :: rows[k].key <= key
    ensures forall k | 0 <= k < |Past(rows, cursor)| :: Past(rows, cursor)[k].key <= key
    decreases |rows|
  {
    if rows != [] {
      PastAtMost(rows[1..], cursor, key);
    }
  }

  lemma {:induction false} PastDescends(rows: seq<Row>, cursor: Option<int>)
    requires Descending(rows)
    ensures Descending(Past(rows, cursor))
    decreases |rows|
  {
    if rows != [] {
      PastStep(rows, cursor);
      hide Past;
      PastDescends(rows[1..], cursor);
      PastAtMost(rows[1..], cursor, rows[0].key);
    }
  }

  /** Rows at or below a key: those past it are all of them, or fewer if the first is at it. */
  lemma PastKey(rows: seq<Row>, key: int)
    requires rows != [] && Descending(rows) && rows[0].key <= key
    ensures rows[0].key < key ==> Past(rows, Some(key)) == rows
    ensures rows[0].key == key ==> |Past(rows, Some(key))| < |rows|
  {
    if rows[0].key < key {
      PastAll(rows, Some(key));
    } else {
      PastStep(rows, Some(key));
      hide Past;
    }
  }

  /** After a full page the next cursor leaves strictly fewer rows: following cursors terminates. */
  lemma CursorMoves(rows: seq<Row>, cursor: Option<int>, limit: int)
    requires Descending(rows) && PageOf(rows, cursor, limit).next.Some?
    ensures var past, n, next := Past(rows, cursor), Clamp(limit), PageOf(rows, cursor, limit).next;
            && |past| > n && next == Some(past[n - 1].key) && past[n].key <= past[n - 1].key
            && Past(rows, next) == Past(past[n..], next)
            && |Past(rows, next)| < |past|
            && (past[n].key < past[n - 1].key ==> Past(rows, next) == past[n..])
            && (past[n].key == past[n - 1].key ==> |Past(rows, next)| < |past[n..]|)
  {
    hide Past, Passes, Clamp, Descending;
    var past, n := Past(rows, cursor), Clamp(limit);
    var key := past[n - 1].key;
    LastPasses(rows, cursor, n - 1);
    PastDescends(rows, cursor);
    PastTwice(rows, cursor, key);
    DescendingParts(past, n);
    assert past == past[..n] + past[n..];
    PastConcat(past[..n], past[n..], Some(key));
    PastNone(past[..n], Some(key));
    PastKey(past[n..], key);
  }

  lemma LastPasses(rows: seq<Row>, cursor: Option<int>, k: nat)
    requires k < |Past(rows, cursor)|
    ensures cursor.Some? ==> Past(rows, cursor)[k].key <= cursor.value
  {
    PastPasses(rows, cursor);
    hide Past;
  }

  lemma DescendingParts(rows: seq<Row>, n: nat)
    requires Descending(rows) && 0 < n < |rows|
    ensures rows[n].key <= rows[n - 1].key && Descending(rows[n..]) && rows[n..][0] == rows[n]
    ensures forall k | 0 <= k < |rows[..n]| :: !Passes(rows[..n][k], Some(rows[n - 1].key))
  {
  }

  /** The pages a client gets by following the cursor from `cursor` to the end. */
  ghost function Walk(rows: seq<Row>, cursor: Option<int>, limit: int): seq<seq<Row>>
    requires Descending(rows)
    decreases |Past(rows, cursor)|
  {
    var page := PageOf(rows, cursor, limit);
    if page.next == None then [page.items]
    else
      CursorMoves(rows, cursor, limit);
      [page.items] + Walk(rows, page.next, limit)
  }

  function Flatten(pages: seq<seq<Row>>): seq<Row> {
    if pages == [] then [] else pages[0] + Flatten(pages[1..])
  }

  /** No page of n ends between two rows of one key. */
  ghost predicate Clean(rows: seq<Row>, n: nat) {
    forall b | 0 < b < |rows| && n > 0 && b % n == 0 :: rows[b].key < rows[b - 1].key
  }

  lemma CleanRest(rows: seq<Row>, n: nat)
    requires 0 < n < |rows|
    ensures Clean(rows, n) <==> rows[n].key < rows[n - 1].key && Clean(rows[n..], n)
  {
    assert n % n == 0;
    forall b | 0 < b < |rows| - n ensures (b + n) % n == b % n {
      ModStep(b, n);
    }
    if rows[n].key < rows[n - 1].key && Clean(rows[n..], n) {
      forall b | 0 < b < |rows| && b % n == 0 ensures rows[b].key < rows[b - 1].key {
        if b < n {
          ModSmall(b, n);
        } else if b > n {
          assert (b - n + n) % n == (b - n) % n;
          assert rows[n..][b - n].key < rows[n..][b - n - 1].key;
        }
      }
    }
    if Clean(rows, n) {
      forall b | 0 < b < |rows[n..]| && b % n == 0 ensures rows[n..][b].key < rows[n..][b - 1].key {
        assert rows[b + n].key < rows[b + n - 1].key;
      }
    }
  }

  lemma CleanShort(rows: seq<Row>, n: nat)
    requires |rows| <= n
    ensures Clean(rows, n)
  {
    forall b | 0 < b < |rows| && n > 0 ensures b % n != 0 {
      ModSmall(b, n);
    }
  }

  lemma FlattenFirst(page: seq<Row>, pages: seq<seq<Row>>)
    ensures Flatten([page] + pages) == page + Flatten(pages)
    ensures pages == [] ==> Flatten([page]) == page
  {
    assert ([page] + pages)[1..] == pages;
    assert [page][1..] == [];
  }

  lemma WalkStep(rows: seq<Row>, cursor: Option<int>, limit: int)
    requires Descending(rows)
    ensures var page := PageOf(rows, cursor, limit);
            Walk(rows, cursor, limit) ==
              if page.next == None then [page.items] else [page.items] + Walk(rows, page.next, limit)
  {
  }

  lemma PageParts(rows: seq<Row>, cursor: Option<int>, limit: int)
    ensures var page, past, n := PageOf(rows, cursor, limit), Past(rows, cursor), Clamp(limit);
            && n > 0
            && (page.next == None ==> page.items == past && |past| <= n)
            && (page.next.Some? ==> |past| > n && page.items == past[..n] && past == past[..n] + past[n..])
  {
    hide Past;
  }

  lemma JoinWithin(a: seq<Row>, b: seq<Row>, c: seq<Row>, q: seq<Row>)
    requires multiset(b) <= multiset(c) && multiset(c) <= multiset(q)
    ensures multiset(a + b) <= multiset(a + q)
    ensures |b| <= |q|
  {
    assert |multiset(b)| <= |multiset(c)| by { assert multiset(c) == multiset(b) + (multiset(c) - multiset(b)); }
    assert |multiset(c)| <= |multiset(q)| by { assert multiset(q) == multiset(c) + (multiset(q) - multiset(c)); }
  }

  /** The pages together hold rows past the cursor, none of them more often than it is there. */
  lemma {:induction false} WalkNeverRepeats(rows: seq<Row>, cursor: Option<int>, limit: int)
    requires Descending(rows)
    ensures multiset(Flatten(Walk(rows, cursor, limit))) <= multiset(Past(rows, cursor))
    ensures |Flatten(Walk(rows, cursor, limit))| <= |Past(rows, cursor)|
    decreases |Past(rows, cursor)|
  {
    var page, past, n := PageOf(rows, cursor, limit), Past(rows, cursor), Clamp(limit);
    hide *;
    WalkStep(rows, cursor, limit);
    PageParts(rows, cursor, limit);
    if page.next == None {
      FlattenFirst(page.items, []);
    } else {
      CursorMoves(rows, cursor, limit);
      WalkNeverRepeats(rows, page.next, limit);
      FlattenFirst(page.items, Walk(rows, page.next, limit));
      PastWithin(past[n..], page.next);
      JoinWithin(page.items, Flatten(Walk(rows, page.next, limit)), Past(rows, page.next), past[n..]);
    }
  }

  lemma PrefixCancels(past: seq<Row>, n: nat, rest: seq<Row>)
    requires n <= |past|
    ensures past[..n] + rest == past <==> rest == past[n..]
  {
    assert (past[..n] + rest)[n..] == rest;
    assert past[..n] + past[n..] == past;
  }

  /** The pages are the whole list exactly if no page ends between two rows of one key. */
  lemma {:induction false} WalkCompleteIff(rows: seq<Row>, cursor: Option<int>, limit: int)
    requires Descending(rows)
    ensures Flatten(Walk(rows, cursor, limit)) == Past(rows, cursor) <==> Clean(Past(rows, cursor), Clamp(limit))
    decreases |Past(rows, cursor)|
  {
    var page, past, n := PageOf(rows, cursor, limit), Past(rows, cursor), Clamp(limit);
    hide *;
    WalkStep(rows, cursor, limit);
    PageParts(rows, cursor, limit);
    if page.next == None {
      FlattenFirst(page.items, []);
      CleanShort(past, n);
    } else {
      CursorMoves(rows, cursor, limit);
      FlattenFirst(page.items, Walk(rows, page.next, limit));
      CleanRest(past, n);
      WalkNeverRepeats(rows, page.next, limit);
      PrefixCancels(past, n, Flatten(Walk(rows, page.next, limit)));
      if past[n].key < past[n - 1].key {
        WalkCompleteIff(rows, page.next, limit);
      }
    }
  }

  /** Rounded up, and one page for an empty list. */
  function PageCount(n: nat, size: nat): nat
    requires size > 0
  {
    if n == 0 then 1 else (n + size - 1) / size
  }

  lemma PageCountStep(n: nat, size: nat)
    requires 0 < size
    ensures n <= size ==> PageCount(n, size) == 1
    ensures n > size ==> PageCount(n, size) == 1 + PageCount(n - size, size)
  {
    if 0 < n <= size {
      DivOnce(n + size - 1, size);
    } else if n > size {
      DivStep(n - 1, size);
    }
  }

  lemma {:induction false} WalkLength(rows: seq<Row>, cursor: Option<int>, limit: int)
    requires Descending(rows) && Clean(Past(rows, cursor), Clamp(limit))
    ensures |Walk(rows, cursor, limit)| == PageCount(|Past(rows, cursor)|, Clamp(limit))
    decreases |Past(rows, cursor)|
  {
    var page, past, n := PageOf(rows, cursor, limit), Past(rows, cursor), Clamp(limit);
    hide *;
    WalkStep(rows, cursor, limit);
    PageParts(rows, cursor, limit);
    PageCountStep(|past|, n);
    if page.next.Some? {
      CursorMoves(rows, cursor, limit);
      CleanRest(past, n);
      WalkLength(rows, page.next, limit);
    }
  }

  /**
    Statements: following the cursor from the start yields every entry, in order, exactly if no
    page ends between two entries booked at one time; it never yields one twice.
  */
  lemma StatementPages(rows: seq<Row>, limit: int)
    requires Descending(rows)
    ensures var all := Flatten(Walk(rows, None, limit));
            && multiset(all) <= multiset(rows)
            && (all == rows <==> Clean(rows, Clamp(limit)))
  {
    PastAll(rows, None);
    WalkNeverRepeats(rows, None, limit);
    WalkCompleteIff(rows, None, limit);
  }

  /** Transactions: ids being distinct, the pages are the whole list, in max(1, ceil(n / limit)) requests. */
  lemma TransactionPages(rows: seq<Row>, limit: int)
    requires Descending(rows) && DistinctKeys(rows)
    ensures Flatten(Walk(rows, None, limit)) == rows
    ensures |Walk(rows, None, limit)| == PageCount(|rows|, Clamp(limit))
  {
    PastAll(rows, None);
    assert Clean(rows, Clamp(limit)) by {
      hide Clamp;
      forall b | 0 < b < |rows| ensures rows[b].key < rows[b - 1].key {
      }
    }
    hide Walk, Past, Flatten, Clean;
    WalkCompleteIff(rows, None, limit);
    WalkLength(rows, None, limit);
  }
}
