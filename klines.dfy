/**
 * The history aggregator's two pagination strategies: one reverse-ordered
 * snapshot (KuCoin, BitMart) and forward paging in full pages of 500
 * (Binance, MEXC), both assembling parallel OHLCV columns.
 *
 * Prices stay the backend's decimal strings (their parsing is not modelled):
 * only the position each one is taken from and the column it lands in matter.
 */
module Klines {
  import opened Base

  /** A candle row: the open time at position 0, raw values at positions 1, 2, ... */
  datatype Row = Row(openTime: int, cells: seq<string>)

  /**
   * `row[k]` for a position `k >= 1`. A missing position reads as "", which
   * parses to NaN exactly as the missing value would.
   */
  function Cell(row: Row, k: nat): string
    requires k >= 1
  {
    if k - 1 < |row.cells| then row.cells[k - 1] else ""
  }

  /** A history answer: `{s: 'no_data'}` or `{s: 'ok', t, o, h, l, c, v[, qv]}`. */
  datatype Series =
    | NoData
    | Candles(t: seq<int>, o: seq<string>, h: seq<string>, l: seq<string>, c: seq<string>, v: seq<string>,
              qv: Option<seq<string>>)

  /** The arguments of one `klines` call, in one order for all backends. */
  datatype Call = Call(symbol: string, interval: string, start: int, end: int, limit: int)

  const KucoinLimit := 1500
  const BitmartLimit := 200
  const PageLimit := 500

  function Reverse<T>(s: seq<T>): (r: seq<T>)
    ensures |r| == |s|
    ensures forall i :: 0 <= i < |s| ==> r[i] == s[|s| - 1 - i]
  {
    seq(|s|, i requires 0 <= i < |s| => s[|s| - 1 - i])
  }

  /** `rows.map(b => b[k])`. */
  function Column(rows: seq<Row>, k: nat): (col: seq<string>)
    requires k >= 1
    ensures |col| == |rows|
    ensures forall i :: 0 <= i < |rows| ==> col[i] == Cell(rows[i], k)
  {
    seq(|rows|, i requires 0 <= i < |rows| => Cell(rows[i], k))
  }

  /** `rows.map(b => Math.floor(b[0] / unit))`. */
  function Times(rows: seq<Row>, unit: nat): (t: seq<int>)
    requires unit >= 1
    ensures |t| == |rows|
    ensures forall i :: 0 <= i < |rows| ==> t[i] == rows[i].openTime / unit
  {
    seq(|rows|, i requires 0 <= i < |rows| => rows[i].openTime / unit)
  }

  // ------------------------------------------------------------ single shot

  /**
   * The one reply of a single-shot backend: nothing usable (no body or no
   * data field), a list of rows, or an error.
   */
  datatype Reply = Missing | Rows(rows: seq<Row>) | Failed(message: string)

  /**
   * `s` holds the rows of `rows` in reverse order, with the values at the
   * given positions as its o, h, l, c and v columns.
   */
  ghost predicate ReversedInto(rows: seq<Row>, s: Series, o: nat, h: nat, l: nat, c: nat, v: nat)
    requires 1 <= o && 1 <= h && 1 <= l && 1 <= c && 1 <= v
  {
    var n := |rows|;
    && s.Candles?
    && |s.t| == |s.o| == |s.h| == |s.l| == |s.c| == |s.v| == n
    && forall i :: 0 <= i < n ==>
      && s.t[i] == rows[n - 1 - i].openTime
      && s.o[i] == Cell(rows[n - 1 - i], o)
      && s.h[i] == Cell(rows[n - 1 - i], h)
      && s.l[i] == Cell(rows[n - 1 - i], l)
      && s.c[i] == Cell(rows[n - 1 - i], c)
      && s.v[i] == Cell(rows[n - 1 - i], v)
  }

  /**
   * The KuCoin branch: no data for a missing or empty reply, otherwise the
   * rows reversed with o, c, h, l, v at positions 1 to 5; a failure becomes
   * a UDFError.
   */
  function KucoinHistory(reply: Reply): (r: Result<Series, UdfError>)
    ensures reply.Failed? ==> r == Err(UDFError("Error fetching KuCoin klines"))
    ensures reply.Missing? || reply == Rows([]) ==> r == Ok(NoData)
    ensures reply.Rows? && reply.rows != [] ==>
      r.Ok? && ReversedInto(reply.rows, r.value, 1, 3, 4, 2, 5) && r.value.qv.None?
  {
    match reply
    case Failed(_) => Err(UDFError("Error fetching KuCoin klines"))
    case Missing => Ok(NoData)
    case Rows(rows) =>
      if rows == [] then Ok(NoData)
      else
        var k := Reverse(rows);
        Ok(Candles(Times(k, 1), Column(k, 1), Column(k, 3), Column(k, 4), Column(k, 2), Column(k, 5), None))
  }

  /**
   * The BitMart branch: no data for a missing or empty reply, otherwise the
   * rows reversed with o, h, l, c, v, qv at positions 1 to 6; a failure
   * becomes a UDFError.
   */
  function BitmartHistory(reply: Reply): (r: Result<Series, UdfError>)
    ensures reply.Failed? ==> r == Err(UDFError("Error fetching BitMart klines"))
    ensures reply.Missing? || reply == Rows([]) ==> r == Ok(NoData)
    ensures reply.Rows? && reply.rows != [] ==>
      && r.Ok? && ReversedInto(reply.rows, r.value, 1, 2, 3, 4, 5)
      && r.value.qv.Some? && |r.value.qv.value| == |reply.rows|
      && forall i :: 0 <= i < |reply.rows| ==> r.value.qv.value[i] == Cell(reply.rows[|reply.rows| - 1 - i], 6)
  {
    match reply
    case Failed(_) => Err(UDFError("Error fetching BitMart klines"))
    case Missing => Ok(NoData)
    case Rows(rows) =>
      if rows == [] then Ok(NoData)
      else
        var k := Reverse(rows);
        Ok(Candles(Times(k, 1), Column(k, 1), Column(k, 2), Column(k, 3), Column(k, 4), Column(k, 5), Some(Column(k, 6))))
  }

  predicate StrictlyAscending(t: seq<int>) {
    forall i, j :: 0 <= i < j < |t| ==> t[i] < t[j]
  }

  /** Rows sent newest first come out oldest first. */
  lemma ReversedAscending(rows: seq<Row>, s: Series)
    requires ReversedInto(rows, s, 1, 2, 3, 4, 5) || ReversedInto(rows, s, 1, 3, 4, 2, 5)
    requires forall i, j :: 0 <= i < j < |rows| ==> rows[i].openTime > rows[j].openTime
    ensures StrictlyAscending(s.t)
  {
    forall i, j | 0 <= i < j < |s.t| ensures s.t[i] < s.t[j] {
      var n := |rows|;
      assert s.t[i] == rows[n - 1 - i].openTime && s.t[j] == rows[n - 1 - j].openTime;
    }
  }

  // ------------------------------------------------------------ forward paging

  /** One reply of a forward-paging backend. */
  datatype Page = Page(rows: seq<Row>) | PageFailed(message: string)

  /** A page that makes the loop ask for the next one. */
  predicate Full(p: Page) { p.Page? && |p.rows| == PageLimit }

  /**
   * The backend eventually answers with a short page or an error; otherwise
   * the loop would never end.
   */
  ghost predicate PagingEnds(pages: seq<Page>) {
    exists i :: 0 <= i < |pages| && !Full(pages[i])
  }

  /** The index of the reply that ends the loop. */
  function StopIndex(pages: seq<Page>): (n: nat)
    requires PagingEnds(pages)
    ensures n < |pages| && !Full(pages[n])
    ensures forall j :: 0 <= j < n ==> Full(pages[j])
    decreases |pages|
  {
    if !Full(pages[0]) then 0
    else
      assert PagingEnds(pages[1..]) by {
        var i :| 0 <= i < |pages| && !Full(pages[i]);
        assert pages[1..][i - 1] == pages[i];
      }
      var n := StopIndex(pages[1..]);
      assert forall j :: 1 <= j < n + 1 ==> pages[j] == pages[1..][j - 1];
      n + 1
  }

  /** The rows of all pages, concatenated in order. */
  function Joined(pages: seq<Page>): (r: seq<Row>)
    ensures forall x :: x in r ==> exists j :: 0 <= j < |pages| && pages[j].Page? && x in pages[j].rows
    ensures forall j, x :: 0 <= j < |pages| && pages[j].Page? && x in pages[j].rows ==> x in r
    decreases |pages|
  {
    if pages == [] then []
    else
      var init := pages[..|pages| - 1];
      var last := pages[|pages| - 1];
      assert forall j :: 0 <= j < |init| ==> init[j] == pages[j];
      Joined(init) + (if last.Page? then last.rows else [])
  }

  /** The number of rows the pages hold. */
  function RowCount(pages: seq<Page>): nat
    decreases |pages|
  {
    if pages == [] then 0
    else (if pages[0].Page? then |pages[0].rows| else 0) + RowCount(pages[1..])
  }

  lemma {:induction false} JoinedCons(p: Page, pages: seq<Page>)
    ensures Joined([p] + pages) == (if p.Page? then p.rows else []) + Joined(pages)
    decreases |pages|
  {
    if pages != [] {
      var init := pages[..|pages| - 1];
      assert ([p] + pages)[..|pages|] == [p] + init;
      JoinedCons(p, init);
    }
  }

  /** The accumulated series is as long as all pages together. */
  lemma {:induction false} JoinedLength(pages: seq<Page>)
    ensures |Joined(pages)| == RowCount(pages)
    decreases |pages|
  {
    if pages != [] {
      assert pages == [pages[0]] + pages[1..];
      JoinedCons(pages[0], pages[1..]);
      JoinedLength(pages[1..]);
    }
  }

  /** `n` full pages hold exactly `500 * n` rows. */
  lemma {:induction false} FullPagesRows(pages: seq<Page>)
    requires forall j :: 0 <= j < |pages| ==> Full(pages[j])
    ensures |Joined(pages)| == PageLimit * |pages|
    decreases |pages|
  {
    if pages != [] {
      FullPagesRows(pages[..|pages| - 1]);
    }
  }

  /** The open time of the last row of a full page. */
  function LastOpen(p: Page): int
    requires Full(p)
  {
    p.rows[PageLimit - 1].openTime
  }

  /**
   * The start argument of the `j`-th call: `from * 1000` first, then the
   * next window start `lastOpen + 1` (already in milliseconds) multiplied by
   * 1000 once more.
   */
  function StartArg(from: int, pages: seq<Page>, j: nat): (r: int)
    requires j <= |pages|
    requires forall m :: 0 <= m < j ==> Full(pages[m])
    ensures r % 1000 == 0
    ensures j == 0 ==> r == from * 1000
    ensures j > 0 ==> r / 1000 == LastOpen(pages[j - 1]) + 1
  {
    (if j == 0 then from else LastOpen(pages[j - 1]) + 1) * 1000
  }

  /**
   * `s` holds `rows` in order, with open times turned into seconds and
   * o, h, l, c, v taken from positions 1 to 5.
   */
  ghost predicate ForwardInto(rows: seq<Row>, s: Series) {
    var n := |rows|;
    && s.Candles? && s.qv.None?
    && |s.t| == |s.o| == |s.h| == |s.l| == |s.c| == |s.v| == n
    && forall i :: 0 <= i < n ==>
      && s.t[i] == rows[i].openTime / 1000
      && s.o[i] == Cell(rows[i], 1)
      && s.h[i] == Cell(rows[i], 2)
      && s.l[i] == Cell(rows[i], 3)
      && s.c[i] == Cell(rows[i], 4)
      && s.v[i] == Cell(rows[i], 5)
  }

  /** The series of the accumulated rows: times in seconds, o, h, l, c, v at positions 1 to 5. */
  function ForwardSeries(rows: seq<Row>): (s: Series)
    ensures ForwardInto(rows, s)
  {
    Candles(Times(rows, 1000), Column(rows, 1), Column(rows, 2), Column(rows, 3), Column(rows, 4), Column(rows, 5), None)
  }

  /** Accumulating one more page appends its rows. */
  lemma JoinedStep(pages: seq<Page>, i: nat)
    requires i < |pages|
    ensures Joined(pages[..i + 1]) == Joined(pages[..i]) + (if pages[i].Page? then pages[i].rows else [])
  {
    assert pages[..i + 1][..i] == pages[..i];
  }

  /**
   * The Binance/MEXC loop: ask for a page of 500 from `start`, append it,
   * and go on from the last open time + 1 while the page is full. The
   * accumulated rows of all pages up to the first short one make the
   * series, or no data when there are none; a backend error aborts the
   * whole request, unwrapped.
   */
  method ForwardHistory(symbol: string, interval: string, from: int, to: int, pages: seq<Page>)
    returns (r: Result<Series, UdfError>, calls: seq<Call>)
    requires PagingEnds(pages)
    ensures var n := StopIndex(pages);
      && |calls| == n + 1
      && (forall j :: 0 <= j <= n ==>
            calls[j] == Call(symbol, interval, StartArg(from, pages, j), to * 1000, PageLimit))
      && (pages[n].PageFailed? ==> r == Err(Backend(pages[n].message)))
      && (pages[n].Page? && Joined(pages[..n + 1]) == [] ==> r == Ok(NoData))
      && (pages[n].Page? && Joined(pages[..n + 1]) != [] ==> r.Ok? && ForwardInto(Joined(pages[..n + 1]), r.value))
  {
    ghost var n := StopIndex(pages);
    var total: seq<Row> := [];
    var start := from;
    var i := 0;
    calls := [];
    while true
      invariant 0 <= i <= n
      invariant total == Joined(pages[..i])
      invariant |calls| == i
      invariant forall j :: 0 <= j < i ==>
        calls[j] == Call(symbol, interval, StartArg(from, pages, j), to * 1000, PageLimit)
      invariant start * 1000 == StartArg(from, pages, i)
      decreases n - i
    {
      calls := calls + [Call(symbol, interval, start * 1000, to * 1000, PageLimit)];
      assert forall j :: 0 <= j <= i ==>
        calls[j] == Call(symbol, interval, StartArg(from, pages, j), to * 1000, PageLimit);
      JoinedStep(pages, i);
      if !Full(pages[i]) {
        assert i == n;
      }
      match pages[i]
      case PageFailed(message) =>
        r := Err(Backend(message));
        return;
      case Page(klines) =>
        total := total + klines;
        if |klines| == PageLimit {
          start := klines[|klines| - 1].openTime + 1;
          i := i + 1;
        } else if |total| == 0 {
          r := Ok(NoData);
          return;
        } else {
          r := Ok(ForwardSeries(total));
          return;
        }
    }
  }

  /**
   * The window start is scaled twice: when the first full page lies in the
   * requested window, the second call starts more than 1000 times later
   * than the first.
   */
  lemma SecondStartOvershoots(from: int, pages: seq<Page>)
    requires |pages| >= 1 && Full(pages[0]) && from >= 0
    requires LastOpen(pages[0]) >= from * 1000
    ensures StartArg(from, pages, 1) >= 1000 * StartArg(from, pages, 0) + 1000
  {
  }

  /**
   * Open times that increase in whole seconds give strictly ascending
   * second timestamps.
   */
  lemma ForwardAscending(rows: seq<Row>, s: Series)
    requires ForwardInto(rows, s)
    requires forall i, j :: 0 <= i < j < |rows| ==> rows[i].openTime < rows[j].openTime
    requires forall i :: 0 <= i < |rows| ==> rows[i].openTime % 1000 == 0
    ensures StrictlyAscending(s.t)
  {
    forall i, j | 0 <= i < j < |s.t| ensures s.t[i] < s.t[j] {
      var a, b := rows[i].openTime, rows[j].openTime;
      assert a == 1000 * (a / 1000) && b == 1000 * (b / 1000);
    }
  }
}
