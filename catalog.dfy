/**
 * The instrument catalog: the four exchange backends, the normalisation of
 * their raw symbol records into one record shape, the field map `asTable`
 * reads, and the filtered search over the catalog.
 */
module Catalog {
  import opened Base
  import opened Text
  import opened Table

  /** The four backends; the tag is the client class name upper-cased. */
  datatype Exchange = Binance | Mexc | Kucoin | Bitmart {
    function Tag(): string {
      match this
      case Binance => "BINANCE"
      case Mexc => "MEXC"
      case Kucoin => "KUCOIN"
      case Bitmart => "BITMART"
    }
  }

  /** A filter of a Binance record; `inverseTick` is `round(1 / tickSize)`. */
  datatype PriceFilter = PriceFilter(filterType: string, inverseTick: int)

  /**
   * A backend symbol record, with the per-backend field names unified
   * (`baseAsset`/`baseCurrency`/`base_currency` become `base`, and likewise
   * for the quote). `inverseIncrement` is `round(1 / priceIncrement)`.
   */
  datatype RawSymbol = RawSymbol(
    symbol: string,
    base: string,
    quote: string,
    quoteAssetPrecision: nat,
    filters: seq<PriceFilter>,
    inverseIncrement: int)

  /**
   * What one backend's metadata fetch gave: its records and the resolutions
   * its client advertises, or a failure (any error, including one raised
   * while normalising).
   */
  datatype Fetch = Fetched(records: seq<RawSymbol>, resolutions: seq<string>) | Failed

  /**
   * A normalised catalog record. The record's other fields are fixed or
   * copies of these (see `Fields`).
   */
  datatype Instrument = Instrument(
    symbol: string,
    description: string,
    exchange: Exchange,
    currencyCode: string,
    priceScale: int,
    resolutions: seq<string>)
  {
    /** The `type` field: every record is a crypto instrument. */
    function Kind(): string { "crypto" }
  }

  function Pow10(n: nat): nat {
    if n == 0 then 1 else 10 * Pow10(n - 1)
  }

  /** The tick multiplier of the first `PRICE_FILTER` filter, if any. */
  function PriceFilterTick(filters: seq<PriceFilter>): (r: Option<int>)
    ensures r.None? <==> forall j :: 0 <= j < |filters| ==> filters[j].filterType != "PRICE_FILTER"
    ensures r.Some? ==> exists j :: (0 <= j < |filters| && filters[j].filterType == "PRICE_FILTER"
      && r.value == filters[j].inverseTick
      && forall m :: 0 <= m < j ==> filters[m].filterType != "PRICE_FILTER")
  {
    if filters == [] then None
    else if filters[0].filterType == "PRICE_FILTER" then Some(filters[0].inverseTick)
    else
      var r := PriceFilterTick(filters[1..]);
      assert forall j :: 1 <= j < |filters| ==> filters[j] == filters[1..][j - 1];
      r
  }

  /**
   * `pricescale`: MEXC uses `10^quoteAssetPrecision`, Binance the first
   * price filter's tick, and everything else (a Binance record without a
   * price filter included) the price increment.
   */
  function PriceScale(raw: RawSymbol, ex: Exchange): (r: int)
    ensures ex == Mexc ==> r == Pow10(raw.quoteAssetPrecision)
    ensures ex == Binance && PriceFilterTick(raw.filters).Some? ==> r == PriceFilterTick(raw.filters).value
    ensures ex != Mexc && (ex != Binance || PriceFilterTick(raw.filters).None?) ==> r == raw.inverseIncrement
  {
    if ex == Mexc then Pow10(raw.quoteAssetPrecision)
    else if ex == Binance && PriceFilterTick(raw.filters).Some? then PriceFilterTick(raw.filters).value
    else raw.inverseIncrement
  }

  /**
   * One backend record as the catalog keeps it: the symbol, "base / quote"
   * as description, the backend's tag, the quote asset as currency, the
   * price scale of that backend and the client's advertised resolutions.
   */
  function Normalize(raw: RawSymbol, ex: Exchange, resolutions: seq<string>): (r: Instrument)
    ensures r.symbol == raw.symbol && r.exchange == ex && r.resolutions == resolutions
    ensures r.description == raw.base + " / " + raw.quote && r.currencyCode == raw.quote
    ensures r.priceScale == PriceScale(raw, ex)
  {
    Instrument(raw.symbol, raw.base + " / " + raw.quote, ex, raw.quote, PriceScale(raw, ex), resolutions)
  }

  /** The records one backend contributes: none when its fetch failed. */
  function FromBackend(f: Fetch, ex: Exchange): (r: seq<Instrument>)
    ensures f.Failed? ==> r == []
    ensures f.Fetched? ==> |r| == |f.records|
    ensures f.Fetched? ==> forall i :: 0 <= i < |r| ==>
      r[i].symbol == f.records[i].symbol && r[i].exchange == ex && r[i].resolutions == f.resolutions
    ensures f.Fetched? ==> forall i :: 0 <= i < |r| ==>
      r[i].description == f.records[i].base + " / " + f.records[i].quote
      && r[i].currencyCode == f.records[i].quote
      && r[i].priceScale == PriceScale(f.records[i], ex)
  {
    match f
    case Failed => []
    case Fetched(records, resolutions) =>
      seq(|records|, i requires 0 <= i < |records| => Normalize(records[i], ex, resolutions))
  }

  /** The symbol strings of a list of records. */
  function SymbolSet(s: seq<Instrument>): (r: set<string>)
    ensures forall i :: 0 <= i < |s| ==> s[i].symbol in r
    ensures forall x :: x in r ==> exists i :: 0 <= i < |s| && s[i].symbol == x
  {
    set i | 0 <= i < |s| :: s[i].symbol
  }

  /** The set of a concatenation's symbols is the union of the parts' sets. */
  lemma SymbolSetConcat(a: seq<Instrument>, b: seq<Instrument>)
    ensures SymbolSet(a + b) == SymbolSet(a) + SymbolSet(b)
  {
    forall x | x in SymbolSet(a + b) ensures x in SymbolSet(a) + SymbolSet(b) {
      var i :| 0 <= i < |a + b| && (a + b)[i].symbol == x;
      if i >= |a| { assert b[i - |a|].symbol == x; } else { assert a[i].symbol == x; }
    }
    forall x | x in SymbolSet(a) ensures x in SymbolSet(a + b) {
      var i :| 0 <= i < |a| && a[i].symbol == x;
      assert (a + b)[i] == a[i];
    }
    forall x | x in SymbolSet(b) ensures x in SymbolSet(a + b) {
      var i :| 0 <= i < |b| && b[i].symbol == x;
      assert (a + b)[|a| + i] == b[i];
    }
  }

  // ---------------------------------------------------------------- symbol info

  /** A field value of a record as the symbol-info table sees it. */
  datatype FieldValue =
    | Text(text: string)
    | Number(number: int)
    | Flag(flag: bool)
      /** An array field; `owner` stands for the array's identity. */
    | List(owner: nat, items: seq<string>)

  /**
   * The record at catalog position `position` as a key/value object. The
   * `supported_resolutions` array is a fresh copy for every record, so its
   * identity differs from record to record.
   */
  function Fields(inst: Instrument, position: nat): map<string, FieldValue> {
    map[
      "symbol" := Text(inst.symbol),
      "ticker" := Text(inst.symbol),
      "name" := Text(inst.symbol),
      "full_name" := Text(inst.symbol),
      "description" := Text(inst.description),
      "exchange" := Text(inst.exchange.Tag()),
      "listed_exchange" := Text(inst.exchange.Tag()),
      "type" := Text(inst.Kind()),
      "currency_code" := Text(inst.currencyCode),
      "session" := Text("24x7"),
      "timezone" := Text("UTC"),
      "minmovement" := Number(1),
      "minmov" := Number(1),
      "minmovement2" := Number(0),
      "minmov2" := Number(0),
      "pricescale" := Number(inst.priceScale),
      "supported_resolutions" := List(position, inst.resolutions),
      "has_intraday" := Flag(true),
      "has_daily" := Flag(true),
      "has_weekly_and_monthly" := Flag(true),
      "data_status" := Text("streaming")
    ]
  }

  /** The 21 keys every record object carries. */
  const FieldNames: set<string> := {
    "symbol", "ticker", "name", "full_name", "description", "exchange", "listed_exchange", "type",
    "currency_code", "session", "timezone", "minmovement", "minmov", "minmovement2", "minmov2",
    "pricescale", "supported_resolutions", "has_intraday", "has_daily", "has_weekly_and_monthly", "data_status"}

  lemma FieldKeys(inst: Instrument, position: nat)
    ensures Fields(inst, position).Keys == FieldNames
  {
  }

  function FieldRows(catalog: seq<Instrument>): (rows: seq<map<string, FieldValue>>)
    ensures |rows| == |catalog|
    ensures forall i :: 0 <= i < |rows| ==> rows[i] == Fields(catalog[i], i)
  {
    seq(|catalog|, i requires 0 <= i < |catalog| => Fields(catalog[i], i))
  }

  /** The `type` column of a non-empty catalog collapses to "crypto". */
  lemma TypeColumnCollapses(catalog: seq<Instrument>)
    requires |catalog| > 0
    ensures Collapse(ColumnOf(FieldRows(catalog), "type")) == Scalar(Text("crypto"))
  {
    var rows := FieldRows(catalog);
    ColumnOfEveryItem(rows, "type");
  }

  /**
   * With two records or more, the `supported_resolutions` column never
   * collapses, since every record carries its own array: it keeps one
   * entry per record.
   */
  lemma ResolutionsColumnStaysFull(catalog: seq<Instrument>)
    requires |catalog| >= 2
    ensures Collapse(ColumnOf(FieldRows(catalog), "supported_resolutions")).Values?
    ensures |Collapse(ColumnOf(FieldRows(catalog), "supported_resolutions")).values| == |catalog|
  {
    var rows := FieldRows(catalog);
    ColumnOfEveryItem(rows, "supported_resolutions");
    var col := ColumnOf(rows, "supported_resolutions");
    assert col[1] != col[0];
  }

  /** The exchange tag of every record, as field values, in catalog order. */
  function ExchangeTags(catalog: seq<Instrument>): (tags: seq<FieldValue>)
    ensures |tags| == |catalog|
    ensures forall n :: 0 <= n < |catalog| ==> tags[n] == Text(catalog[n].exchange.Tag())
  {
    seq(|catalog|, n requires 0 <= n < |catalog| => Text(catalog[n].exchange.Tag()))
  }

  /** The gathered `exchange` column holds every record's tag, in catalog order. */
  lemma ExchangeColumn(catalog: seq<Instrument>)
    ensures ColumnOf(FieldRows(catalog), "exchange") == ExchangeTags(catalog)
  {
    var rows := FieldRows(catalog);
    forall i | 0 <= i < |rows|
      ensures "exchange" in rows[i] && rows[i]["exchange"] == Text(catalog[i].exchange.Tag())
    {
      assert rows[i] == Fields(catalog[i], i);
    }
    ColumnOfEveryItem(rows, "exchange");
  }

  /**
   * A catalog whose records do not all share one exchange keeps the full
   * `exchange` column, one tag per record in catalog order.
   */
  lemma ExchangeColumnMixed(catalog: seq<Instrument>, i: nat, j: nat)
    requires i < |catalog| && j < |catalog| && catalog[i].exchange != catalog[j].exchange
    ensures Collapse(ColumnOf(FieldRows(catalog), "exchange")) == Values(ExchangeTags(catalog))
  {
    ExchangeColumn(catalog);
    var col := ExchangeTags(catalog);
    assert col[i] != col[j];
  }

  // ---------------------------------------------------------------- search

  /** One search hit: the record's searchable fields. */
  datatype SearchResult = SearchResult(
    symbol: string,
    fullName: string,
    description: string,
    exchange: string,
    ticker: string,
    kind: string)

  function Hit(inst: Instrument): SearchResult {
    SearchResult(inst.symbol, inst.symbol, inst.description, inst.exchange.Tag(), inst.symbol, inst.Kind())
  }

  /** A string parameter that is present and not empty (JavaScript truthiness). */
  predicate Given(p: Option<string>) { p.Some? && p.value != "" }

  /** Whether the record passes the type filter. */
  predicate TypeOk(inst: Instrument, kind: Option<string>) {
    !Given(kind) || inst.Kind() == kind.value
  }

  /** Whether the record passes the exchange filter; "ALL" disables it. */
  predicate ExchangeOk(inst: Instrument, exchange: Option<string>) {
    !Given(exchange) || exchange.value == "ALL" || inst.exchange.Tag() == Upper(exchange.value)
  }

  /** Whether the record's symbol contains the upper-cased query. */
  predicate QueryOk(inst: Instrument, query: string) {
    Contains(inst.symbol, Upper(query))
  }

  /**
   * A condition on records: one of the three filters of `search`, all
   * three of a request at once, or two conditions together.
   */
  datatype Criterion =
    | KindIs(kind: Option<string>)
    | ExchangeIs(exchange: Option<string>)
    | SymbolHas(query: string)
    | Request(query: string, kind: Option<string>, exchange: Option<string>)
    | Both(first: Criterion, second: Criterion)

  predicate Passes(inst: Instrument, c: Criterion) {
    match c
    case KindIs(kind) => TypeOk(inst, kind)
    case ExchangeIs(exchange) => ExchangeOk(inst, exchange)
    case SymbolHas(query) => QueryOk(inst, query)
    case Request(query, kind, exchange) => TypeOk(inst, kind) && ExchangeOk(inst, exchange) && QueryOk(inst, query)
    case Both(first, second) => Passes(inst, first) && Passes(inst, second)
  }

  /** `s.filter(...)`: the records of `s` that satisfy `c`, in order. */
  function Keep(s: seq<Instrument>, c: Criterion): (r: seq<Instrument>)
    ensures |r| <= |s|
    ensures forall i :: 0 <= i < |r| ==> Passes(r[i], c) && r[i] in s
    decreases |s|
  {
    if s == [] then []
    else if Passes(s[0], c) then [s[0]] + Keep(s[1..], c)
    else Keep(s[1..], c)
  }

  /** Filtering keeps order: the kept part of `a + b` is that of `a`, then that of `b`. */
  lemma {:induction false} KeepConcat(a: seq<Instrument>, b: seq<Instrument>, c: Criterion)
    ensures Keep(a + b, c) == Keep(a, c) + Keep(b, c)
    decreases |a|
  {
    if a == [] {
      assert a + b == b;
    } else {
      assert (a + b)[0] == a[0];
      assert (a + b)[1..] == a[1..] + b;
      KeepConcat(a[1..], b, c);
    }
  }

  /** Filtering twice keeps what one filter on both conditions keeps. */
  lemma {:induction false} KeepKeep(s: seq<Instrument>, p: Criterion, q: Criterion, pq: Criterion)
    requires forall x :: Passes(x, pq) == (Passes(x, p) && Passes(x, q))
    ensures Keep(Keep(s, p), q) == Keep(s, pq)
    decreases |s|
  {
    if s != [] {
      KeepKeep(s[1..], p, q, pq);
      if Passes(s[0], p) {
        assert Keep(s, p)[1..] == Keep(s[1..], p);
      }
    }
  }

  /** A filter that every record passes keeps the list as it is. */
  lemma {:induction false} KeepAll(s: seq<Instrument>, c: Criterion)
    requires forall i :: 0 <= i < |s| ==> Passes(s[i], c)
    ensures Keep(s, c) == s
    decreases |s|
  {
    if s != [] {
      KeepAll(s[1..], c);
    }
  }

  /** Every record of the list that satisfies the condition is kept. */
  lemma {:induction false} KeepComplete(s: seq<Instrument>, c: Criterion, x: Instrument)
    requires x in s && Passes(x, c)
    ensures x in Keep(s, c)
    decreases |s|
  {
    if s[0] != x {
      KeepComplete(s[1..], c, x);
    }
  }

  /**
   * The reference selection: one pass keeping the records that pass all
   * three filters.
   */
  function Selected(catalog: seq<Instrument>, query: string, kind: Option<string>, exchange: Option<string>): seq<Instrument>
  {
    Keep(catalog, Request(query, kind, exchange))
  }

  /** The type filter step, applied only when a type is given. */
  function FilterKind(s: seq<Instrument>, kind: Option<string>): seq<Instrument> {
    if Given(kind) then Keep(s, KindIs(kind)) else s
  }

  /** The exchange filter step, applied only for an exchange other than "ALL". */
  function FilterExchange(s: seq<Instrument>, exchange: Option<string>): seq<Instrument> {
    if Given(exchange) && exchange.value != "ALL" then Keep(s, ExchangeIs(exchange)) else s
  }

  /** The source's three successive filters select what `Selected` does. */
  lemma SelectedIsChain(catalog: seq<Instrument>, query: string, kind: Option<string>, exchange: Option<string>)
    ensures Keep(FilterExchange(FilterKind(catalog, kind), exchange), SymbolHas(query))
      == Selected(catalog, query, kind, exchange)
  {
    var both := Both(KindIs(kind), ExchangeIs(exchange));
    if Given(kind) {
      KeepKeep(catalog, KindIs(kind), ExchangeIs(exchange), both);
    } else {
      KeepAll(catalog, KindIs(kind));
    }
    var byType := FilterKind(catalog, kind);
    if !(Given(exchange) && exchange.value != "ALL") {
      KeepAll(byType, ExchangeIs(exchange));
    }
    assert FilterExchange(byType, exchange) == Keep(byType, ExchangeIs(exchange));
    assert Keep(byType, ExchangeIs(exchange)) == Keep(catalog, both) by {
      if !Given(kind) {
        KeepKeep(catalog, KindIs(kind), ExchangeIs(exchange), both);
      }
    }
    forall x ensures Passes(x, Request(query, kind, exchange)) == (Passes(x, both) && Passes(x, SymbolHas(query))) {
    }
    KeepKeep(catalog, both, SymbolHas(query), Request(query, kind, exchange));
  }

  /**
   * `search(query, type, exchange, limit)`: the hits that pass the type
   * filter (when a type is given), the exchange filter (when an exchange
   * other than "ALL" is given) and the query filter, in catalog order,
   * truncated to `limit` when the limit is non-zero.
   */
  function Search(catalog: seq<Instrument>, query: string, kind: Option<string>, exchange: Option<string>, limit: Option<int>)
    : (r: seq<SearchResult>)
    ensures forall i :: 0 <= i < |r| ==> Contains(r[i].symbol, Upper(query))
    ensures Given(kind) ==> forall i :: 0 <= i < |r| ==> r[i].kind == kind.value
    ensures Given(exchange) && exchange.value != "ALL" ==>
      forall i :: 0 <= i < |r| ==> r[i].exchange == Upper(exchange.value)
    ensures limit.None? || limit.value == 0 ==> |r| == |Selected(catalog, query, kind, exchange)|
    ensures limit.Some? && limit.value > 0 ==>
      |r| == Min(limit.value, |Selected(catalog, query, kind, exchange)|)
    ensures limit.Some? && limit.value < 0 ==>
      var n := |Selected(catalog, query, kind, exchange)|;
      |r| == if n + limit.value > 0 then n + limit.value else 0
    ensures |r| <= |Selected(catalog, query, kind, exchange)|
    ensures forall i :: 0 <= i < |r| ==> r[i] == Hit(Selected(catalog, query, kind, exchange)[i])
  {
    var matching := Keep(FilterExchange(FilterKind(catalog, kind), exchange), SymbolHas(query));
    SelectedIsChain(catalog, query, kind, exchange);
    var kept := Truncate(matching, limit);
    HitsPass(kept, query, kind, exchange);
    Hits(kept)
  }

  /** The hits of records that pass a request's three filters show that they pass. */
  lemma HitsPass(kept: seq<Instrument>, query: string, kind: Option<string>, exchange: Option<string>)
    requires forall i :: 0 <= i < |kept| ==> Passes(kept[i], Request(query, kind, exchange))
    ensures forall i :: 0 <= i < |kept| ==> Contains(Hits(kept)[i].symbol, Upper(query))
    ensures Given(kind) ==> forall i :: 0 <= i < |kept| ==> Hits(kept)[i].kind == kind.value
    ensures Given(exchange) && exchange.value != "ALL" ==>
      forall i :: 0 <= i < |kept| ==> Hits(kept)[i].exchange == Upper(exchange.value)
  {
  }

  /** `if (limit) s = s.slice(0, limit)`: a prefix, cut only for a non-zero limit. */
  function Truncate<T>(s: seq<T>, limit: Option<int>): (r: seq<T>)
    ensures |r| <= |s| && r == s[..|r|]
    ensures limit.None? || limit.value == 0 ==> r == s
    ensures limit.Some? && limit.value > 0 ==> |r| == Min(limit.value, |s|)
    ensures limit.Some? && limit.value < 0 ==> |r| == if |s| + limit.value > 0 then |s| + limit.value else 0
  {
    if limit.Some? && limit.value != 0 then SliceTo(s, limit.value) else s
  }

  /** `.map(...)` of the kept records to their search hits. */
  function Hits(s: seq<Instrument>): (r: seq<SearchResult>)
    ensures |r| == |s|
    ensures forall i :: 0 <= i < |s| ==> r[i] == Hit(s[i])
  {
    seq(|s|, i requires 0 <= i < |s| => Hit(s[i]))
  }

  function Min(a: int, b: int): int { if a < b then a else b }

  /** Without a limit, every catalog record that passes the filters is found. */
  lemma SearchComplete(catalog: seq<Instrument>, query: string, kind: Option<string>, exchange: Option<string>, x: Instrument)
    requires x in catalog
    requires TypeOk(x, kind) && ExchangeOk(x, exchange) && QueryOk(x, query)
    ensures Hit(x) in Search(catalog, query, kind, exchange, None)
  {
    var sel := Selected(catalog, query, kind, exchange);
    KeepComplete(catalog, Request(query, kind, exchange), x);
    var i :| 0 <= i < |sel| && sel[i] == x;
    assert Search(catalog, query, kind, exchange, None)[i] == Hit(x);
  }

  /**
   * The "ALL" test is case-sensitive while the comparison upper-cases:
   * asking for exchange "all" finds nothing.
   */
  lemma LowercaseAllFindsNothing(catalog: seq<Instrument>, query: string, kind: Option<string>, limit: Option<int>)
    ensures Search(catalog, query, kind, Some("all"), limit) == []
  {
    assert Upper("all") == "ALL";
    forall x | x in catalog ensures !Passes(x, Request(query, kind, Some("all"))) {
      assert x.exchange.Tag() != "ALL";
    }
    KeepNone(catalog, Request(query, kind, Some("all")));
  }

  /** A filter that no record passes keeps nothing. */
  lemma {:induction false} KeepNone(s: seq<Instrument>, c: Criterion)
    requires forall x :: x in s ==> !Passes(x, c)
    ensures Keep(s, c) == []
    decreases |s|
  {
    if s != [] {
      KeepNone(s[1..], c);
    }
  }
}
