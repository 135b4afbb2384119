/**
 * The query facade: an object holding the current catalog (`symbols`, in
 * order, and `allSymbols`, the set of their symbol strings), refreshed from
 * the four backends, and the operations that read it.
 */
module Udf {
  import opened Base
  import opened Text
  import opened Table
  import opened Catalog
  import opened Resolutions
  import opened Klines

  /** The four backend fetch results of one refresh. */
  datatype Fetches = Fetches(binance: Fetch, mexc: Fetch, kucoin: Fetch, bitmart: Fetch)

  /** The backends in the order a refresh concatenates their records. */
  const BackendOrder: seq<Exchange> := [Binance, Mexc, Kucoin, Bitmart]

  /** The fetch result of one backend. */
  function FetchOf(f: Fetches, ex: Exchange): Fetch {
    match ex
    case Binance => f.binance
    case Mexc => f.mexc
    case Kucoin => f.kucoin
    case Bitmart => f.bitmart
  }

  /** The records of the listed backends, concatenated in list order. */
  function Combine(f: Fetches, order: seq<Exchange>): seq<Instrument>
    decreases |order|
  {
    if order == [] then [] else FromBackend(FetchOf(f, order[0]), order[0]) + Combine(f, order[1..])
  }

  /** `order` with `ex` taken out. */
  function Except(order: seq<Exchange>, ex: Exchange): seq<Exchange>
    decreases |order|
  {
    if order == [] then []
    else if order[0] == ex then Except(order[1..], ex)
    else [order[0]] + Except(order[1..], ex)
  }

  /**
   * The catalog a refresh publishes: each backend's records in
   * `BackendOrder`, and only records of backends whose fetch succeeded.
   */
  function Assemble(f: Fetches): (r: seq<Instrument>)
    ensures r == Combine(f, BackendOrder)
    ensures forall i :: 0 <= i < |r| ==> FetchOf(f, r[i].exchange).Fetched?
  {
    CombineInOrder(f);
    CombineFetched(f, BackendOrder);
    FromBackend(f.binance, Binance) + FromBackend(f.mexc, Mexc)
      + FromBackend(f.kucoin, Kucoin) + FromBackend(f.bitmart, Bitmart)
  }

  /** `Combine` over `BackendOrder` is the four parts concatenated. */
  lemma CombineInOrder(f: Fetches)
    ensures Combine(f, BackendOrder) == FromBackend(f.binance, Binance) + FromBackend(f.mexc, Mexc)
      + FromBackend(f.kucoin, Kucoin) + FromBackend(f.bitmart, Bitmart)
  {
    var b, m, k, t := FromBackend(f.binance, Binance), FromBackend(f.mexc, Mexc),
      FromBackend(f.kucoin, Kucoin), FromBackend(f.bitmart, Bitmart);
    var o3: seq<Exchange> := [Bitmart];
    var o2 := [Kucoin] + o3;
    var o1 := [Mexc] + o2;
    assert BackendOrder == [Binance] + o1;
    assert [Bitmart] + [] == o3;
    CombineCons(f, Bitmart, []);
    CombineCons(f, Kucoin, o3);
    CombineCons(f, Mexc, o2);
    CombineCons(f, Binance, o1);
    Regroup(b, m, k, t);
  }

  lemma Regroup<T>(b: seq<T>, m: seq<T>, k: seq<T>, t: seq<T>)
    ensures b + (m + (k + (t + []))) == b + m + k + t
  {
    assert t + [] == t;
  }

  /** One more backend in front puts its records in front. */
  lemma CombineCons(f: Fetches, ex: Exchange, order: seq<Exchange>)
    ensures Combine(f, [ex] + order) == FromBackend(FetchOf(f, ex), ex) + Combine(f, order)
  {
    assert ([ex] + order)[1..] == order;
  }

  /** Every combined record comes from a backend whose fetch succeeded. */
  lemma {:induction false} CombineFetched(f: Fetches, order: seq<Exchange>)
    ensures forall i :: 0 <= i < |Combine(f, order)| ==> FetchOf(f, Combine(f, order)[i].exchange).Fetched?
    decreases |order|
  {
    if order != [] {
      var head: seq<Instrument> := FromBackend(FetchOf(f, order[0]), order[0]);
      var rest: seq<Instrument> := Combine(f, order[1..]);
      CombineFetched(f, order[1..]);
      forall i | 0 <= i < |head + rest| ensures FetchOf(f, (head + rest)[i].exchange).Fetched? {
        if i < |head| {
          assert (head + rest)[i] == head[i];
        } else {
          assert (head + rest)[i] == rest[i - |head|];
        }
      }
    }
  }

  /** Leaving a failed backend out of the list changes nothing. */
  lemma {:induction false} CombineSkipsFailed(f: Fetches, order: seq<Exchange>, ex: Exchange)
    requires FetchOf(f, ex).Failed?
    ensures Combine(f, order) == Combine(f, Except(order, ex))
    decreases |order|
  {
    if order != [] {
      CombineSkipsFailed(f, order[1..], ex);
      var e := Except(order[1..], ex);
      if order[0] != ex {
        assert ([order[0]] + e)[0] == order[0];
        assert ([order[0]] + e)[1..] == e;
      }
    }
  }

  /** The symbol `symbol(id)` looks for: the second `:`-component (or `id`), upper-cased. */
  function LookupKey(id: string): (r: string)
    ensures |r| == |SecondComponentOrWhole(id)|
    ensures forall i :: 0 <= i < |r| ==> r[i] == UpperChar(SecondComponentOrWhole(id)[i])
    ensures forall i :: 0 <= i < |r| ==> !IsLower(r[i])
    ensures ':' !in id ==> r == Upper(id)
  {
    Upper(SecondComponentOrWhole(id))
  }

  /** The first record whose symbol is `key`, or `SymbolNotFound`. */
  function FirstWithSymbol(catalog: seq<Instrument>, key: string): (r: Result<Instrument, UdfError>)
    ensures r.Err? <==> forall i :: 0 <= i < |catalog| ==> catalog[i].symbol != key
    ensures r.Err? ==> r.error == SymbolNotFound
    ensures r.Ok? ==> exists i :: (0 <= i < |catalog| && catalog[i] == r.value && r.value.symbol == key
      && forall j :: 0 <= j < i ==> catalog[j].symbol != key)
    decreases |catalog|
  {
    if catalog == [] then Err(SymbolNotFound)
    else if catalog[0].symbol == key then Ok(catalog[0])
    else
      var r := FirstWithSymbol(catalog[1..], key);
      assert forall i :: 1 <= i < |catalog| ==> catalog[i] == catalog[1..][i - 1];
      r
  }

  /** An exchange prefix and the case of the bare symbol do not change the lookup. */
  lemma PrefixedLookup(prefix: string, bare: string)
    requires ':' !in prefix && ':' !in bare
    ensures LookupKey(prefix + ":" + bare) == LookupKey(bare)
  {
    SecondComponentOfPrefixed(prefix, bare);
  }

  /**
   * `symbol("BINANCE:ethusdt")` looks for the same symbol as
   * `symbol("ETHUSDT")`, namely "ETHUSDT".
   */
  lemma EthusdtExample()
    ensures LookupKey("BINANCE:ethusdt") == LookupKey("ETHUSDT") == "ETHUSDT"
  {
    var id, plain := "BINANCE:ethusdt", "ETHUSDT";
    var ex, bare := "BINANCE", "ethusdt";
    assert ':' !in ex && ':' !in bare && ':' !in plain;
    assert id == ex + ":" + bare;
    PrefixedLookup(ex, bare);
    assert SecondComponentOrWhole(bare) == bare;
    assert SecondComponentOrWhole(plain) == plain;
    UpperEthusdt();
  }

  lemma UpperEthusdt()
    ensures Upper("ethusdt") == "ETHUSDT" && Upper("ETHUSDT") == "ETHUSDT"
  {
    var bare, plain := "ethusdt", "ETHUSDT";
    assert Upper(bare) == plain by {
      assert forall i :: 0 <= i < 7 ==> UpperChar(bare[i]) == plain[i];
    }
    assert Upper(plain) == plain by {
      assert forall i :: 0 <= i < 7 ==> UpperChar(plain[i]) == plain[i];
    }
  }

  /** What a history request may receive from the backend it is sent to. */
  datatype Replies = Replies(single: Reply, pages: seq<Page>)

  class Feed {
    var symbols: seq<Instrument>
    var allSymbols: set<string>

    /** The two catalog fields describe the same records. */
    ghost predicate Valid()
      reads this
    {
      allSymbols == SymbolSet(symbols)
    }

    /**
     * Creating the feed runs the first refresh; the model starts once it
     * has published a catalog.
     */
    constructor (f: Fetches)
      ensures Valid()
      ensures symbols == Assemble(f)
    {
      symbols := Assemble(f);
      allSymbols := SymbolSet(FromBackend(f.binance, Binance)) + SymbolSet(FromBackend(f.mexc, Mexc))
        + SymbolSet(FromBackend(f.kucoin, Kucoin)) + SymbolSet(FromBackend(f.bitmart, Bitmart));
      AllSymbolsOfParts(f);
    }

    /**
     * `loadSymbols()`: publish the records of the four backends in order,
     * a failed backend contributing none, and the set of their symbols.
     */
    method LoadSymbols(f: Fetches)
      modifies this
      ensures Valid()
      ensures symbols == Assemble(f)
    {
      var binance := FromBackend(f.binance, Binance);
      var mexc := FromBackend(f.mexc, Mexc);
      var kucoin := FromBackend(f.kucoin, Kucoin);
      var bitmart := FromBackend(f.bitmart, Bitmart);
      symbols := binance + mexc + kucoin + bitmart;
      allSymbols := SymbolSet(binance) + SymbolSet(mexc) + SymbolSet(kucoin) + SymbolSet(bitmart);
      AllSymbolsOfParts(f);
    }

    /** `checkSymbol(s)`: an exact, case-sensitive membership test. */
    function CheckSymbol(s: string): (r: bool)
      requires Valid()
      reads this
      ensures r <==> exists i :: 0 <= i < |symbols| && symbols[i].symbol == s
    {
      s in allSymbols
    }

    /**
     * `symbol(id)`: the first record whose symbol is the upper-cased second
     * `:`-component of `id` (or all of `id`), else `SymbolNotFound`.
     */
    method Symbol(id: string) returns (r: Result<Instrument, UdfError>)
      ensures r == FirstWithSymbol(symbols, LookupKey(id))
    {
      var comps := SecondComponentOrWhole(id);
      var s := Upper(comps);
      var i := 0;
      while i < |symbols|
        invariant 0 <= i <= |symbols|
        invariant forall j :: 0 <= j < i ==> symbols[j].symbol != s
      {
        if symbols[i].symbol == s {
          FirstMatch(symbols, s, i);
          return Ok(symbols[i]);
        }
        i := i + 1;
      }
      return Err(SymbolNotFound);
    }

    /** `symbolInfo()`: the columnar table of the whole catalog. */
    method SymbolInfo() returns (table: map<string, Column<FieldValue>>)
      ensures |symbols| == 0 ==> table == map[]
      ensures |symbols| > 0 ==> table.Keys == FieldNames
      ensures |symbols| > 0 ==> table["type"] == Scalar(Text("crypto"))
      ensures |symbols| >= 2 ==>
        table["supported_resolutions"].Values? && |table["supported_resolutions"].values| == |symbols|
      ensures forall k :: k in table ==> table[k] == Collapse(ColumnOf(FieldRows(symbols), k))
    {
      table := AsTable(FieldRows(symbols));
      if |symbols| > 0 {
        FieldRowKeys(symbols);
        TypeColumnCollapses(symbols);
      }
      if |symbols| >= 2 {
        ResolutionsColumnStaysFull(symbols);
      }
    }

    /**
     * `history(symbol, from, to, resolution)`: reject a symbol missing from
     * `allSymbols` and a resolution the record's exchange cannot serve,
     * both before any backend call; then ask the record's exchange, once
     * for KuCoin (limit 1500) and BitMart (limit 200), page by page for
     * Binance and MEXC.
     */
    method History(symbol: string, from: int, to: int, resolution: string, replies: Replies)
      returns (r: Result<Series, UdfError>, calls: seq<Call>)
      requires Valid()
      requires PagingEnds(replies.pages)
      ensures !CheckSymbol(symbol) ==> r == Err(SymbolNotFound) && calls == []
      ensures CheckSymbol(symbol) && FirstWithSymbol(symbols, LookupKey(symbol)).Err? ==>
        r == Err(SymbolNotFound) && calls == []
      ensures CheckSymbol(symbol) && FirstWithSymbol(symbols, LookupKey(symbol)).Ok? ==>
        var ex := FirstWithSymbol(symbols, LookupKey(symbol)).value.exchange;
        && (Translate(ex, resolution).Err? ==> r == Err(InvalidResolution) && calls == [])
        && (Translate(ex, resolution).Ok? ==>
              var interval := Translate(ex, resolution).value;
              && (ex == Kucoin ==>
                    r == KucoinHistory(replies.single) && calls == [Call(symbol, interval, from, to, KucoinLimit)])
              && (ex == Bitmart ==>
                    r == BitmartHistory(replies.single) && calls == [Call(symbol, interval, from, to, BitmartLimit)])
              && (ex == Binance || ex == Mexc ==>
                    var n := StopIndex(replies.pages);
                    && |calls| == n + 1
                    && calls[0] == Call(symbol, interval, from * 1000, to * 1000, PageLimit)
                    && (forall j :: 0 <= j <= n ==>
                          calls[j] == Call(symbol, interval, StartArg(from, replies.pages, j), to * 1000, PageLimit))
                    && (replies.pages[n].PageFailed? ==> r == Err(Backend(replies.pages[n].message)))
                    && (replies.pages[n].Page? && Joined(replies.pages[..n + 1]) == [] ==> r == Ok(NoData))
                    && (replies.pages[n].Page? && Joined(replies.pages[..n + 1]) != [] ==>
                          r.Ok? && ForwardInto(Joined(replies.pages[..n + 1]), r.value))))
    {
      if !CheckSymbol(symbol) {
        return Err(SymbolNotFound), [];
      }
      var info := Symbol(symbol);
      if info.Err? {
        return Err(info.error), [];
      }
      var ex := info.value.exchange;
      var interval := Translate(ex, resolution);
      if interval.Err? {
        return Err(InvalidResolution), [];
      }
      if ex == Kucoin {
        r := KucoinHistory(replies.single);
        calls := [Call(symbol, interval.value, from, to, KucoinLimit)];
        return;
      }
      if ex == Bitmart {
        r := BitmartHistory(replies.single);
        calls := [Call(symbol, interval.value, from, to, BitmartLimit)];
        return;
      }
      r, calls := ForwardHistory(symbol, interval.value, from, to, replies.pages);
    }
  }

  /** The set built from the four parts is the set of the whole catalog. */
  lemma AllSymbolsOfParts(f: Fetches)
    ensures SymbolSet(Assemble(f)) == SymbolSet(FromBackend(f.binance, Binance)) + SymbolSet(FromBackend(f.mexc, Mexc))
      + SymbolSet(FromBackend(f.kucoin, Kucoin)) + SymbolSet(FromBackend(f.bitmart, Bitmart))
  {
    var b, m, k, t := FromBackend(f.binance, Binance), FromBackend(f.mexc, Mexc),
      FromBackend(f.kucoin, Kucoin), FromBackend(f.bitmart, Bitmart);
    SymbolSetConcat(b, m);
    SymbolSetConcat(b + m, k);
    SymbolSetConcat(b + m + k, t);
  }

  /**
   * A backend whose fetch fails contributes no record: the catalog is the
   * other three backends' records, in their order.
   */
  lemma FailedBackendContributesNothing(f: Fetches, ex: Exchange)
    requires FetchOf(f, ex).Failed?
    ensures Assemble(f) == Combine(f, Except(BackendOrder, ex))
    ensures forall i :: 0 <= i < |Assemble(f)| ==> Assemble(f)[i].exchange != ex
  {
    CombineSkipsFailed(f, BackendOrder, ex);
  }

  lemma FirstMatch(catalog: seq<Instrument>, key: string, i: nat)
    requires i < |catalog| && catalog[i].symbol == key
    requires forall j :: 0 <= j < i ==> catalog[j].symbol != key
    ensures FirstWithSymbol(catalog, key) == Ok(catalog[i])
  {
    var r := FirstWithSymbol(catalog, key);
    var m :| 0 <= m < |catalog| && catalog[m] == r.value && r.value.symbol == key
      && forall j :: 0 <= j < m ==> catalog[j].symbol != key;
    assert m == i;
  }

  /** A non-empty catalog's table has exactly the record keys. */
  lemma FieldRowKeys(catalog: seq<Instrument>)
    requires |catalog| > 0
    ensures KeysOf(FieldRows(catalog)) == FieldNames
  {
    var rows := FieldRows(catalog);
    forall i | 0 <= i < |rows| ensures rows[i].Keys == FieldNames {
      FieldKeys(catalog[i], i);
    }
    forall k | k in KeysOf(rows) ensures k in FieldNames {
      var i :| 0 <= i < |rows| && k in rows[i];
    }
    forall k | k in FieldNames ensures k in KeysOf(rows) {
      assert k in rows[0];
    }
  }
}
