/** Reading a range of 15-minute candles page by page. */
module CandlePaging {
  import opened Arith
  import opened Sorting

  const BUCKET: int := 900000
  const MAX_PAGES: nat := 5000

  /** A candle as the exchange sends it; incomplete ones lack some of their six fields. */
  datatype Candle = Candle(ts: int, complete: bool, data: int)

  datatype Row = Row(ts: int, data: int)

  /** The answer to asking for candles from a time on, at the first or second attempt; `None` is a failure.
      The cursor never comes back to the same time, so this covers answers that change as time passes. */
  type Exchange = (int, nat) -> Option<seq<Candle>>

  datatype Range = Range(since: int, until: int)

  function Bucket(ts: int): int { ts - ts % BUCKET }

  function Fetch(x: Exchange, cursor: int): Option<seq<Candle>> {
    if x(cursor, 0).Some? then x(cursor, 0) else x(cursor, 1)
  }

  predicate Seen(rows: seq<Row>, ts: int) { exists i :: 0 <= i < |rows| && rows[i].ts == ts }

  function AddCandle(rows: seq<Row>, c: Candle, r: Range): seq<Row> {
    var ts := Bucket(c.ts);
    if !c.complete || ts < r.since || ts > r.until || Seen(rows, ts) then rows else rows + [Row(ts, c.data)]
  }

  function AddPage(rows: seq<Row>, page: seq<Candle>, r: Range): seq<Row> {
    if page == [] then rows else AddCandle(AddPage(rows, page[..|page| - 1], r), page[|page| - 1], r)
  }

  /** The bucket of the last complete candle. */
  function LastTs(page: seq<Candle>): Option<int> {
    if page == [] then None
    else if page[|page| - 1].complete then Some(Bucket(page[|page| - 1].ts))
    else LastTs(page[..|page| - 1])
  }

  function Pages(x: Exchange, r: Range, rows: seq<Row>, cursor: int, left: nat): Option<seq<Row>>
    decreases left
  {
    if cursor > r.until || left == 0 then Some(rows)
    else
      var page := Fetch(x, cursor);
      if page.None? then None
      else
        var more, last := AddPage(rows, page.value, r), LastTs(page.value);
        if last.None? || last.value >= r.until || last.value + BUCKET <= cursor then Some(more)
        else Pages(x, r, more, last.value + BUCKET, left - 1)
  }

  predicate Before(x: Row, y: Row) { x.ts < y.ts }

  function FetchRange(x: Exchange, r: Range): Option<seq<Row>> {
    var rows := Pages(x, r, [], r.since, MAX_PAGES);
    if rows.None? then None else Some(Sort(rows.value, Before))
  }

  method FetchOhlcvRange(x: Exchange, r: Range, limit: int) returns (out: Option<seq<Row>>)
    ensures out == FetchRange(x, r)
  {
    var rows: seq<Row> := [];
    var seen: set<int> := {};
    var cursor := r.since;
    var loops := 0;
    while cursor <= r.until && loops < MAX_PAGES
      invariant loops <= MAX_PAGES
      invariant Pages(x, r, [], r.since, MAX_PAGES) == Pages(x, r, rows, cursor, MAX_PAGES - loops)
      invariant forall ts :: ts in seen <==> Seen(rows, ts)
      decreases MAX_PAGES - loops
    {
      loops := loops + 1;
      var answer := x(cursor, 0);
      if answer.None? {
        answer := x(cursor, 1);
      }
      if answer.None? {
        return None;
      }
      var page := answer.value;
      if page == [] {
        break;
      }
      var last: Option<int>;
      rows, seen, last := ReadPage(rows, seen, page, r);
      if last.None? || last.value >= r.until {
        break;
      }
      var next := last.value + BUCKET;
      if next <= cursor {
        break;
      }
      cursor := next;
      if |page| < MaxI(20, limit) && cursor > r.until {
        break;
      }
    }
    assert Pages(x, r, [], r.since, MAX_PAGES) == Some(rows);
    out := Some(Sort(rows, Before));
  }

  method ReadPage(rows: seq<Row>, seen: set<int>, page: seq<Candle>, r: Range)
    returns (rows': seq<Row>, seen': set<int>, last: Option<int>)
    requires forall ts :: ts in seen <==> Seen(rows, ts)
    ensures rows' == AddPage(rows, page, r) && last == LastTs(page)
    ensures forall ts :: ts in seen' <==> Seen(rows', ts)
  {
    rows', seen', last := rows, seen, None;
    for i := 0 to |page|
      invariant rows' == AddPage(rows, page[..i], r) && last == LastTs(page[..i])
      invariant forall ts :: ts in seen' <==> Seen(rows', ts)
    {
      assert page[..i + 1][..i] == page[..i];
      if !page[i].complete {
        continue;
      }
      var ts := Bucket(page[i].ts);
      last := Some(ts);
      if ts < r.since || ts > r.until || ts in seen' {
        continue;
      }
      forall t ensures Seen(rows' + [Row(ts, page[i].data)], t) <==> Seen(rows', t) || t == ts {
        SeenSnoc(rows', Row(ts, page[i].data), t);
      }
      seen' := seen' + {ts};
      rows' := rows' + [Row(ts, page[i].data)];
    }
    assert page[..|page|] == page;
  }

  lemma {:induction false} SeenSnoc(rows: seq<Row>, x: Row, t: int)
    ensures Seen(rows + [x], t) <==> Seen(rows, t) || t == x.ts
  {
    if Seen(rows, t) {
      var i :| 0 <= i < |rows| && rows[i].ts == t;
      assert (rows + [x])[i].ts == t;
    }
    assert (rows + [x])[|rows|] == x;
  }

  // ----- Whatever the exchange answers -----

  ghost predicate Clean(rows: seq<Row>, r: Range) {
    && (forall i :: 0 <= i < |rows| ==> r.since <= rows[i].ts <= r.until && rows[i].ts % BUCKET == 0)
    && (forall i, j :: 0 <= i < j < |rows| ==> rows[i].ts != rows[j].ts)
  }

  lemma {:induction false} PageKeepsClean(rows: seq<Row>, page: seq<Candle>, r: Range)
    requires Clean(rows, r)
    ensures Clean(AddPage(rows, page, r), r)
  {
    if page != [] {
      PageKeepsClean(rows, page[..|page| - 1], r);
    }
  }

  lemma {:induction false} PagesKeepClean(x: Exchange, r: Range, rows: seq<Row>, cursor: int, left: nat)
    requires Clean(rows, r) && Pages(x, r, rows, cursor, left).Some?
    ensures Clean(Pages(x, r, rows, cursor, left).value, r)
    decreases left
  {
    if cursor <= r.until && left > 0 {
      var page := Fetch(x, cursor).value;
      PageKeepsClean(rows, page, r);
      hide Clean, AddPage, Fetch, LastTs;
      var last := LastTs(page);
      if !(last.None? || last.value >= r.until || last.value + BUCKET <= cursor) {
        PagesKeepClean(x, r, AddPage(rows, page, r), last.value + BUCKET, left - 1);
      }
    }
  }

  /** Whatever the exchange answers, the rows are on the 15-minute grid, in the range, in order, and distinct. */
  lemma {:induction false} RowsAreCleanAndSorted(x: Exchange, r: Range)
    requires FetchRange(x, r).Some?
    ensures var rows := FetchRange(x, r).value;
      Clean(rows, r) && forall i, j :: 0 <= i < j < |rows| ==> rows[i].ts < rows[j].ts
  {
    var a := Pages(x, r, [], r.since, MAX_PAGES).value;
    PagesKeepClean(x, r, [], r.since, MAX_PAGES);
    SortMultiset(a, Before);
    SortSorted(a, Before);
    hide Pages;
    CleanPermutes(a, Sort(a, Before), r);
    var rows := FetchRange(x, r).value;
    assert forall i, j :: 0 <= i < j < |rows| ==> !Before(rows[j], rows[i]);
  }

  lemma {:induction false} CleanPermutes(a: seq<Row>, b: seq<Row>, r: Range)
    requires Clean(a, r) && multiset(a) == multiset(b)
    ensures Clean(b, r)
  {
    assert Distinct(a);
    DistinctPermutation(a, b);
    forall i | 0 <= i < |b| ensures b[i] in a {
      assert b[i] in multiset(a);
    }
    forall i, j | 0 <= i < j < |b| ensures b[i].ts != b[j].ts {
      assert b[i] in a && b[j] in a && b[i] != b[j];
    }
  }

  // ----- A well-behaved exchange -----

  /** What the exchange has: complete candles on the grid, in order. */
  ghost predicate Archive(book: seq<Candle>) {
    && (forall i :: 0 <= i < |book| ==> book[i].complete && book[i].ts % BUCKET == 0)
    && (forall i, j :: 0 <= i < j < |book| ==> book[i].ts < book[j].ts)
  }

  /** How many candles lie before a time. */
  function Index(book: seq<Candle>, ts: int): (i: nat)
    ensures i <= |book|
    ensures forall j :: i <= j < |book| ==> book[j].ts >= ts
    ensures i > 0 ==> book[i - 1].ts < ts
  {
    if book == [] || book[|book| - 1].ts < ts then |book| else Index(book[..|book| - 1], ts)
  }

  function Page(book: seq<Candle>, limit: nat, cursor: int): seq<Candle> {
    var i := Index(book, cursor);
    book[i..MinI(i + limit, |book|)]
  }

  /** It answers every request with the first `limit` candles from the cursor on. */
  ghost predicate Serves(x: Exchange, book: seq<Candle>, limit: nat) {
    forall cursor :: Fetch(x, cursor) == Some(Page(book, limit, cursor))
  }

  function RowsOf(cs: seq<Candle>): (rows: seq<Row>)
    ensures |rows| == |cs| && forall i :: 0 <= i < |cs| ==> rows[i] == Row(cs[i].ts, cs[i].data)
  {
    if cs == [] then [] else RowsOf(cs[..|cs| - 1]) + [Row(cs[|cs| - 1].ts, cs[|cs| - 1].data)]
  }

  /** The direct query: the candles of the range, as many as the page limit allows. */
  function Direct(book: seq<Candle>, r: Range, start: nat, most: nat): seq<Candle>
    requires start <= |book|
  {
    book[start..MaxI(start, MinI(Index(book, r.until + 1), start + most))]
  }

  lemma {:induction false} IndexSplits(book: seq<Candle>, ts: int, k: nat)
    requires Archive(book) && k < |book|
    ensures k < Index(book, ts) <==> book[k].ts < ts
  {
    var i := Index(book, ts);
    if k + 1 < i {
      assert book[k].ts < book[i - 1].ts;
    }
  }

  lemma {:induction false} IndexIs(book: seq<Candle>, ts: int, i: nat)
    requires Archive(book) && i <= |book|
    requires i < |book| ==> book[i].ts >= ts
    requires i > 0 ==> book[i - 1].ts < ts
    ensures Index(book, ts) == i
  {
    if i < |book| {
      IndexSplits(book, ts, i);
    }
    if i > 0 {
      IndexSplits(book, ts, i - 1);
    }
  }

  lemma {:induction false} IndexMonotone(book: seq<Candle>, a: int, b: int)
    requires Archive(book) && a <= b
    ensures Index(book, a) <= Index(book, b)
  {
    var i := Index(book, a);
    if i > 0 {
      IndexSplits(book, b, i - 1);
    }
  }

  /** The rows of candles `start..e` of the archive. */
  function Read(book: seq<Candle>, start: nat, e: nat): seq<Row>
    requires start <= e <= |book|
  {
    RowsOf(book[start..e])
  }

  lemma {:induction false} ReadOneMore(book: seq<Candle>, start: nat, j: nat)
    requires Archive(book) && start <= j < |book|
    ensures Read(book, start, j + 1) == Read(book, start, j) + [Row(book[j].ts, book[j].data)]
    ensures !Seen(Read(book, start, j), book[j].ts)
    ensures book[j].complete && Bucket(book[j].ts) == book[j].ts
  {
    assert book[start..j + 1][..j - start] == book[start..j];
  }

  /** Candle `j` of the archive is kept exactly when it lies before the end of the range. */
  lemma {:induction false} AppendOne(book: seq<Candle>, r: Range, start: nat, end: nat, j: nat)
    requires Archive(book) && start == Index(book, r.since) <= j < |book| && start <= end == Index(book, r.until + 1)
    ensures AddCandle(Read(book, start, MinI(j, end)), book[j], r) == Read(book, start, MinI(j + 1, end))
  {
    hide Index, Archive, Read, Seen, Bucket;
    IndexSplits(book, r.until + 1, j);
    IndexSplits(book, r.since, j);
    ReadOneMore(book, start, j);
  }

  /** Reading candles `i..j` of the archive after `start..i` keeps those up to the end of the range. */
  lemma {:induction false} PageAppends(book: seq<Candle>, r: Range, start: nat, end: nat, i: nat, j: nat)
    requires Archive(book) && start == Index(book, r.since) <= i <= j <= |book| && i <= end == Index(book, r.until + 1)
    ensures AddPage(Read(book, start, i), book[i..j], r) == Read(book, start, MinI(j, end))
  {
    hide AddCandle, Read, Index, Archive;
    if i < j {
      var page := book[i..j];
      assert page[..|page| - 1] == book[i..j - 1] && page[|page| - 1] == book[j - 1];
      PageAppends(book, r, start, end, i, j - 1);
      AppendOne(book, r, start, end, j - 1);
    }
  }

  lemma {:induction false} LastOfPage(book: seq<Candle>, i: nat, j: nat)
    requires Archive(book) && i <= j <= |book|
    ensures LastTs(book[i..j]) == if i < j then Some(book[j - 1].ts) else None
  {}

  /** Where reading stops: at the end of the range, or after `left` more pages. */
  function Stop(end: nat, limit: nat, i: nat, left: nat): nat { MaxI(i, MinI(end, i + left * limit)) }

  /** From candle `i` on, the pages still to come complete the direct query. */
  lemma {:induction false} PagesComplete(x: Exchange, book: seq<Candle>, limit: nat, r: Range, start: nat, end: nat,
                                         i: nat, cursor: int, left: nat)
    requires Archive(book) && Serves(x, book, limit) && limit > 0 && end == Index(book, r.until + 1)
    requires start == Index(book, r.since) <= i == Index(book, cursor)
    ensures Stop(end, limit, i, left) <= |book|
    ensures Pages(x, r, Read(book, start, i), cursor, left) == Some(Read(book, start, Stop(end, limit, i, left)))
    decreases left
  {
    hide AddPage, Read, Fetch, Serves, LastTs, Index, Archive;
    if cursor > r.until {
      IndexMonotone(book, r.until + 1, cursor);
    } else if left > 0 {
      IndexMonotone(book, cursor, r.until + 1);
      var j := MinI(i + limit, |book|);
      ServesPage(x, book, limit, cursor);
      LastOfPage(book, i, j);
      PageAppends(book, r, start, end, i, j);
      if i == j {
        StopsAt(book, end, limit, i, left, j);
      } else {
        IndexSplits(book, cursor, j - 1);
        if book[j - 1].ts >= r.until {
          EndsAt(book, r, j);
          StopsAt(book, end, limit, i, left, j);
        } else {
          NextCursor(book, j);
          EndsAfter(book, r, j);
          StopLater(book, end, limit, i, left, j);
          hide Stop;
          PagesComplete(x, book, limit, r, start, end, j, book[j - 1].ts + BUCKET, left - 1);
        }
      }
    }
  }

  /** A page that reaches the end of the range or of the archive is the last one read. */
  lemma {:induction false} StopsAt(book: seq<Candle>, end: nat, limit: nat, i: nat, left: nat, j: nat)
    requires left > 0 && limit > 0 && i <= end <= |book| && j == MinI(i + limit, |book|)
    requires i == j || end <= j
    ensures Stop(end, limit, i, left) == MinI(j, end) <= |book|
  {
    MorePages(left, limit);
  }

  lemma {:induction false} StopLater(book: seq<Candle>, end: nat, limit: nat, i: nat, left: nat, j: nat)
    requires left > 0 && limit > 0 && i < j == MinI(i + limit, |book|) && j <= end <= |book|
    ensures Stop(end, limit, i, left) == Stop(end, limit, j, left - 1)
  {
    MorePages(left, limit);
  }

  lemma {:induction false} ServesPage(x: Exchange, book: seq<Candle>, limit: nat, cursor: int)
    requires Serves(x, book, limit)
    ensures var i := Index(book, cursor);
      Fetch(x, cursor) == Some(book[i..MinI(i + limit, |book|)])
  {}

  lemma {:induction false} MorePages(left: nat, limit: nat)
    requires left > 0
    ensures left * limit == limit + (left - 1) * limit && (left - 1) * limit >= 0
  {}

  lemma {:induction false} EndsAt(book: seq<Candle>, r: Range, j: nat)
    requires Archive(book) && 0 < j <= |book| && book[j - 1].ts >= r.until
    ensures Index(book, r.until + 1) <= j
  {
    if j < |book| {
      IndexSplits(book, r.until + 1, j);
    }
  }

  lemma {:induction false} EndsAfter(book: seq<Candle>, r: Range, j: nat)
    requires Archive(book) && 0 < j <= |book| && book[j - 1].ts < r.until
    ensures Index(book, r.until + 1) >= j
  {
    IndexSplits(book, r.until + 1, j - 1);
  }

  /** On the grid the next candle is at least one bucket later. */
  lemma {:induction false} NextCursor(book: seq<Candle>, j: nat)
    requires Archive(book) && 0 < j <= |book|
    ensures Index(book, book[j - 1].ts + BUCKET) == j
  {
    if j < |book| {
      NextOnGrid(book[j - 1].ts, book[j].ts);
    }
    IndexIs(book, book[j - 1].ts + BUCKET, j);
  }

  lemma {:induction false} NextOnGrid(a: int, b: int)
    requires a % BUCKET == 0 && b % BUCKET == 0 && a < b
    ensures a + BUCKET <= b
  {}

  lemma {:induction false} RowsInOrder(cs: seq<Candle>)
    requires forall i, j :: 0 <= i < j < |cs| ==> cs[i].ts < cs[j].ts
    ensures Sort(RowsOf(cs), Before) == RowsOf(cs)
  {
    SortOfSorted(RowsOf(cs), Before);
  }

  /** Against an exchange that serves its archive page by page, paging is the direct range query: exactly
      the candles of the range, in order and once each, up to the limit of 5000 pages. */
  lemma {:induction false} PagingIsTheRangeQuery(x: Exchange, book: seq<Candle>, limit: nat, r: Range)
    requires Archive(book) && Serves(x, book, limit) && limit > 0
    ensures FetchRange(x, r) == Some(RowsOf(Direct(book, r, Index(book, r.since), MAX_PAGES * limit)))
  {
    var start := Index(book, r.since);
    var end := Index(book, r.until + 1);
    assert Read(book, start, start) == [];
    PagesComplete(x, book, limit, r, start, end, start, r.since, MAX_PAGES);
    var cs := Direct(book, r, start, MAX_PAGES * limit);
    assert cs == book[start..Stop(end, limit, start, MAX_PAGES)];
    hide Index, Pages;
    RowsInOrder(cs);
  }

  /** With no more than 5000 full pages in the range, nothing is cut off: a candle of the archive is
      returned exactly when its time is in the range. */
  lemma {:induction false} NothingIsCutOff(x: Exchange, book: seq<Candle>, limit: nat, r: Range, k: nat)
    requires Archive(book) && Serves(x, book, limit) && limit > 0 && k < |book|
    requires Index(book, r.until + 1) - Index(book, r.since) <= MAX_PAGES * limit
    ensures FetchRange(x, r).Some?
    ensures Row(book[k].ts, book[k].data) in FetchRange(x, r).value <==> r.since <= book[k].ts <= r.until
  {
    hide FetchRange, RowsOf, Serves, Index, Archive;
    PagingIsTheRangeQuery(x, book, limit, r);
    IndexSplits(book, r.since, k);
    IndexSplits(book, r.until + 1, k);
    InSlice(book, Index(book, r.since), MaxI(Index(book, r.since), Index(book, r.until + 1)), k);
  }

  lemma {:induction false} InSlice(book: seq<Candle>, a: nat, b: nat, k: nat)
    requires Archive(book) && a <= b <= |book| && k < |book|
    ensures Row(book[k].ts, book[k].data) in RowsOf(book[a..b]) <==> a <= k < b
  {
    var rows, row := RowsOf(book[a..b]), Row(book[k].ts, book[k].data);
    if a <= k < b {
      assert rows[k - a] == row;
    }
    if row in rows {
      var i :| 0 <= i < |rows| && rows[i] == row;
      assert book[a + i].ts == book[k].ts;
      SameTime(book, a + i, k);
    }
  }

  lemma {:induction false} SameTime(book: seq<Candle>, i: nat, k: nat)
    requires Archive(book) && i < |book| && k < |book| && book[i].ts == book[k].ts
    ensures i == k
  {}
}
