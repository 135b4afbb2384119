# Crypto chart data feed and chart storage — a Dafny model

This project models the two stateful cores of a crypto charting web app:

- **The data feed** (`lib/udf.js`, class `UDF`). It keeps a catalog of
  trading instruments gathered from four exchange backends: Binance, MEXC,
  KuCoin and BitMart. It answers symbol lookups, symbol searches and the
  columnar "symbol info" table. It translates a chart resolution into each
  exchange's interval name. It assembles OHLCV candle history in one of two
  ways. KuCoin and BitMart answer one reverse-ordered snapshot. Binance and
  MEXC are paged forward, 500 rows at a time.
- **The chart storage adapter** (`lib/save_load_adapter.js`, class
  `LocalStorageSaveLoadAdapter`). It keeps charts, study templates, drawing
  templates, chart templates and per-chart line-tool drawings in memory.
  It marks the store dirty whenever something changes.

Layout, one module per file:

| file | module | what it holds |
|---|---|---|
| `base.dfy` | `Base` | `Option`, `Result` and the feed's error kinds (`SymbolNotFound`, `InvalidResolution`, `UDFError`, and a backend error passed through unwrapped) |
| `text.dfy` | `Text` | ASCII upper-casing, substring test, `split(':')` component, JavaScript `slice(0, end)` |
| `table.dfy` | `Table` | `asTable`: the row-to-column transposition and the collapse of single-valued columns, as an imperative method |
| `catalog.dfy` | `Catalog` | exchanges, raw and normalised symbol records, price scale, the record's field map, and the search filters |
| `resolutions.dfy` | `Resolutions` | the four resolution-to-interval tables and their lookup |
| `klines.dfy` | `Klines` | the single-shot KuCoin/BitMart branches and the forward-paging loop |
| `udf.dfy` | `Udf` | class `Feed`, holding the catalog (`symbols`, `allSymbols`), and its operations |
| `save_load.dfy` | `SaveLoad` | class `Store`, holding the five collections and the dirty flag, and its operations |

Backend replies, the current time and random draws are all parameters. For
example, `Feed.History` takes the reply the backend would send, and
`Store.SaveChart` takes the clock reading and the random draws.
`Feed.History` also returns the `klines` calls it would make, so the
arguments it sends can be stated.

Three behaviours of the code that its interface does not suggest:

- The search query is upper-cased and the stored symbol is not, so the
  match is not case-insensitive in general.
- Only the exact string "ALL" disables the exchange filter
  (`Catalog.LowercaseAllFindsNothing`).
- On a full page, the forward-paging loop computes the next window start in
  milliseconds and then multiplies it by 1000 again
  (`Klines.SecondStartOvershoots`).

## Model

| member | source | states |
|---|---|---|
| Catalog.PriceFilterTick | lib/udf.js:48-52 | the tick of the first `PRICE_FILTER` filter, or none exactly when no filter has that type |
| Catalog.PriceScale | lib/udf.js:44-55 | MEXC: 10^quoteAssetPrecision. Binance: the first price filter's tick. Otherwise, or for Binance without a price filter: the price increment |
| Catalog.Normalize | lib/udf.js:62-95 | one catalog record: the symbol, "base / quote" as description, the backend's tag, the quote asset as currency code, that backend's price scale and the client's advertised resolutions |
| Catalog.FromBackend | lib/udf.js:57-103 | a failed fetch contributes no records. Otherwise one record per raw record, in order, with its symbol, "base / quote" description, quote currency code, the backend's price scale, its exchange tag and the client's advertised resolutions |
| Catalog.SymbolSetConcat | lib/udf.js:117-124 | the symbol set of concatenated parts is the union of the parts' symbol sets |
| Udf.AllSymbolsOfParts | lib/udf.js:110-124 | the set built from the four parts is the symbol set of the published catalog |
| Udf.Assemble | lib/udf.js:105-115 | the published catalog is each backend's records in the order Binance, MEXC, KuCoin, BitMart, and every record comes from a backend whose fetch succeeded |
| Udf.CombineFetched | lib/udf.js:96-115 | every record of the combined backends belongs to a backend whose fetch succeeded |
| Udf.CombineSkipsFailed | lib/udf.js:96-115 | leaving a failed backend out of the list changes nothing |
| Udf.FailedBackendContributesNothing | lib/udf.js:96-115 | for any of the four backends whose fetch fails, the catalog is the other three backends' records, in order, and no record carries the failed backend's tag |
| Udf.Feed.constructor | lib/udf.js:11-35 | the first refresh publishes the assembled catalog with a matching symbol set |
| Udf.Feed.LoadSymbols | lib/udf.js:105-124 | the catalog becomes the four backends' records, in the order Binance, MEXC, KuCoin, BitMart. The symbol set stays equal to the catalog's symbols |
| Udf.Feed.CheckSymbol | lib/udf.js:127-131 | true exactly when some catalog record has that symbol, compared exactly and case-sensitively |
| Table.KeysOf | lib/udf.js:135-141 | a key is a column exactly when some item carries it |
| Table.ColumnOf | lib/udf.js:135-141 | a column holds only values that items carry under its key |
| Table.Collapse | lib/udf.js:143-147 | a single value exactly when the column is non-empty and uniform, and then every entry equals it. Otherwise the column unchanged |
| Table.Distinct | lib/udf.js:144 | de-duplication keeps exactly the values of the column, pairwise distinct, and starts with the column's first value |
| Table.DistinctSingleton | lib/udf.js:144-147 | the de-duplicated column has one value exactly when the column is non-empty and all its values are equal |
| Table.ColumnOfSnoc | lib/udf.js:135-141 | proof helper for the loop invariant: pushing an item extends each column it carries by its value and leaves the other columns as they were |
| Table.KeysOfSnoc | lib/udf.js:135-141 | proof helper for the loop invariant: pushing an item adds exactly its keys to the columns |
| Table.ColumnOfAbsent | lib/udf.js:136-140 | a key that no item carries has an empty column |
| Table.ColumnOfEveryItem | lib/udf.js:135-141 | when every item carries a key, its column holds every item's value, in item order |
| Table.ColumnOfLength | lib/udf.js:135-141 | a column has exactly one value per item that carries its key, so it is no longer than the item list and non-empty for a key some item carries |
| Table.PushItem | lib/udf.js:136-141 | the inner loop over one item's keys turns the columns of the items so far into the columns with that item appended |
| Table.PushingEnds | lib/udf.js:135-141 | once all of an item's keys are pushed, the columns are those of the earlier items with that item appended |
| Table.AsTable | lib/udf.js:133-150 | the table has exactly the keys of the items. Each entry is the single shared value when all of that key's values are equal, else the full column in item order |
| Table.CollapseAll | lib/udf.js:143-148 | the second loop keeps every key and collapses each column exactly as `Collapse` does |
| Catalog.FieldRows | lib/udf.js:62-95 | one key/value object per catalog record, in catalog order |
| Catalog.FieldKeys | lib/udf.js:62-95 | every record object carries exactly the 21 keys of `FieldNames` |
| Udf.FieldRowKeys | lib/udf.js:135-141 | the table of a non-empty catalog has exactly those 21 keys |
| Catalog.TypeColumnCollapses | lib/udf.js:143-147 | in the symbol-info table of a non-empty catalog, `type` is the single value "crypto" |
| Catalog.ResolutionsColumnStaysFull | lib/udf.js:143-147 | with two records or more, `supported_resolutions` never collapses, because each record's array is a fresh copy (line 90). It keeps one entry per record |
| Catalog.ExchangeTags | lib/udf.js:72 | one exchange tag per record, in catalog order |
| Catalog.ExchangeColumn | lib/udf.js:135-141 | the gathered `exchange` column is every record's tag, in catalog order |
| Catalog.ExchangeColumnMixed | lib/udf.js:143-147 | a catalog with two different exchanges keeps the full `exchange` column, one tag per record |
| Udf.Feed.SymbolInfo | lib/udf.js:196-200 | the table of the whole catalog. An empty catalog gives an empty table; otherwise the 21 record keys, `type` collapsed to "crypto", and `supported_resolutions` one per record |
| Text.UpperChar | lib/udf.js:206 | a lower-case ASCII letter becomes its capital (code point minus 32), any other character is unchanged, and the result is never a lower-case letter |
| Text.Upper | lib/udf.js:206 | the same length, upper-casing each character |
| Text.Contains | lib/udf.js:230 | `indexOf(q) >= 0` holds exactly when `q` occurs at some position of `s` |
| Text.BeforeColon | lib/udf.js:205 | the longest colon-free prefix: it ends at the first colon or at the end |
| Text.AfterColon | lib/udf.js:205 | the text after the first colon, up to the end |
| Text.SecondComponentOrWhole | lib/udf.js:205-206 | `split(':')[1]` or the whole id: the whole string when it has no colon. Otherwise the colon-free text from just after the first colon up to the next colon or the end |
| Text.SecondComponentIsBetweenColons | lib/udf.js:205 | the second component starts just after the first colon and ends at the next colon or the end |
| Text.AfterColonOfJoin | lib/udf.js:205-206 | for colon-free `p` and `s`, the second component of `p:s` is `s` |
| Text.SecondComponentOfPrefixed | lib/udf.js:205-206 | for colon-free `p` and `s`, the lookup component of `p:s` is `s` |
| Udf.LookupKey | lib/udf.js:205-206 | the key is the second component (or the whole id) upper-cased character by character, so it has no lower-case letter. For an id without a colon it is the id upper-cased |
| Udf.FirstWithSymbol | lib/udf.js:208-214 | `SymbolNotFound` exactly when no record has the key. Otherwise the first record with that symbol |
| Udf.FirstMatch | lib/udf.js:208-212 | a record at `i` with that symbol and none before it is the one found |
| Udf.PrefixedLookup | lib/udf.js:205-206 | an exchange prefix does not change which symbol is looked up |
| Udf.UpperEthusdt | lib/udf.js:206 | "ethusdt" upper-cases to "ETHUSDT", which upper-cases to itself |
| Udf.EthusdtExample | lib/udf.js:202-215 | `symbol("BINANCE:ethusdt")` and `symbol("ETHUSDT")` both look for "ETHUSDT" |
| Udf.Feed.Symbol | lib/udf.js:202-215 | the loop returns the first record whose symbol is the upper-cased second component (or the whole id). It returns `SymbolNotFound` when there is none |
| Catalog.Keep | lib/udf.js:221-230 | a filter keeps only records that pass and that were in the list, and is no longer than the list |
| Catalog.KeepConcat | lib/udf.js:221-230 | a filter keeps order: the kept part of `a + b` is the kept part of `a` followed by that of `b` |
| Catalog.KeepKeep | lib/udf.js:221-230 | two successive filters keep what one filter on both conditions keeps |
| Catalog.KeepAll | lib/udf.js:221-230 | a filter that every record passes changes nothing |
| Catalog.KeepComplete | lib/udf.js:221-230 | every record that passes is kept |
| Catalog.KeepNone | lib/udf.js:221-230 | a filter that no record passes keeps nothing |
| Catalog.SelectedIsChain | lib/udf.js:221-230 | the type, exchange and query filters in sequence select what a single pass testing all three selects |
| Catalog.Hits | lib/udf.js:236-243 | one hit per kept record, in order |
| Catalog.HitsPass | lib/udf.js:236-243 | a hit of a record that passes the three filters contains the query and has the requested type and exchange |
| Catalog.Search | lib/udf.js:217-244 | Every hit contains the upper-cased query, has the given type, and, unless the exchange is "ALL", is on the upper-cased exchange. Hits keep catalog order. With no limit or limit 0 there are all matches; with a positive limit, the first `min(limit, matches)`; with a negative limit, all but the last `-limit` matches (none when there are no more) |
| Catalog.SearchComplete | lib/udf.js:217-244 | without a limit, every catalog record that passes the three filters is found |
| Catalog.LowercaseAllFindsNothing | lib/udf.js:225-226 | the exchange "all" is not the exact "ALL", so it filters against "ALL" and finds nothing |
| Text.SliceTo | lib/udf.js:232-234 | `slice(0, end)`: a prefix of length `min(end, n)`; for a negative end, `max(n + end, 0)` |
| Catalog.Truncate | lib/udf.js:232-234 | a prefix of the matches. Cut to `min(limit, n)` for a positive limit and to `max(n + limit, 0)` for a negative one; all of them when there is no limit or the limit is 0 |
| Resolutions.Translate | lib/udf.js:326-336 | the interval exactly when the exchange's table has the token, and it is non-empty. Otherwise `InvalidResolution` |
| Resolutions.ThreeDaysUnsupported | lib/udf.js:18-29 | "3D" is advertised by the feed, but no exchange's table serves it |
| Resolutions.BitmartHasNoDaily | lib/udf.js:297-307 | BitMart rejects both "D" and "1D" |
| Resolutions.AdvertisedResolutionsServed | lib/udf.js:254-308 | BitMart serves every resolution its records advertise. MEXC and KuCoin serve every one except "3D" |
| Resolutions.DailyTokens | lib/udf.js:254-296 | "D" and "1D" give the same interval on Binance, MEXC and KuCoin |
| Klines.Reverse | lib/udf.js:355 | the reversal of a list |
| Klines.Column | lib/udf.js:358-363 | one value per row, taken at the given position |
| Klines.Times | lib/udf.js:358 | one open time per row, divided by the unit and floored |
| Klines.KucoinHistory | lib/udf.js:338-369 | A failure gives `UDFError("Error fetching KuCoin klines")`. A missing or empty reply gives no data. Otherwise the rows reversed, with o, c, h, l, v at positions 1 to 5 and no qv |
| Klines.BitmartHistory | lib/udf.js:370-398 | A failure gives `UDFError("Error fetching BitMart klines")`. A missing or empty reply gives no data. Otherwise the rows reversed, with o, h, l, c, v at positions 1 to 5 and qv at 6 |
| Klines.ReversedAscending | lib/udf.js:355-364 | rows sent newest first come out with strictly ascending times |
| Klines.StopIndex | lib/udf.js:410-426 | the first reply that is not a full page of 500, where the loop stops |
| Klines.Joined | lib/udf.js:408 | the accumulated rows are exactly the rows of the pages: none invented, none of any page lost |
| Klines.StartArg | lib/udf.js:403-411 | the start sent for page `j`: `from * 1000` for the first; later, one past the previous page's last open time, multiplied by 1000 once more |
| Klines.JoinedCons | lib/udf.js:408 | the accumulation of a page followed by more pages is that page's rows followed by theirs |
| Klines.JoinedLength | lib/udf.js:408 | the accumulated series is as long as all the pages together |
| Klines.JoinedStep | lib/udf.js:408 | proof helper for the loop invariant: accumulating one more page appends exactly its rows |
| Klines.FullPagesRows | lib/udf.js:407-411 | `n` full pages accumulate exactly `500 * n` rows |
| Klines.ForwardHistory | lib/udf.js:399-427 | One call per page up to the first short page or error. The first call starts at `from * 1000`, each later one at `(lastOpen + 1) * 1000`, all with end `to * 1000` and limit 500. A backend error ends the request unwrapped. No rows gives no data; otherwise all rows in order, in seconds, with o, h, l, c, v at positions 1 to 5 |
| Klines.ForwardSeries | lib/udf.js:416-424 | the series of the accumulated rows: times in seconds, o, h, l, c, v at positions 1 to 5, and no qv |
| Klines.SecondStartOvershoots | lib/udf.js:403-411 | after a full first page inside the window, the second call starts more than 1000 times later than the first |
| Klines.ForwardAscending | lib/udf.js:418 | open times that increase in whole seconds give strictly ascending second timestamps |
| Udf.Feed.History | lib/udf.js:246-428 | A symbol missing from `allSymbols` or the catalog gives `SymbolNotFound`, and a resolution the record's exchange cannot serve gives `InvalidResolution`, both before any backend call. Otherwise KuCoin makes one call with limit 1500, BitMart one with limit 200, and Binance and MEXC page forward, call `j` starting at `StartArg(from, pages, j)` |
| SaveLoad.Keys | lib/save_load_adapter.js:219 | the key of every element, in order |
| SaveLoad.IndexOf | lib/save_load_adapter.js:31-37 | -1 exactly when the key is absent. Otherwise the first position holding it |
| SaveLoad.Without | lib/save_load_adapter.js:31-37 | removing the first element with the key: one shorter when the key is present, otherwise unchanged |
| SaveLoad.WithoutShifts | lib/save_load_adapter.js:33 | `splice(i, 1)` keeps the elements before `i` and shifts the later ones down by one |
| SaveLoad.WithoutKeeps | lib/save_load_adapter.js:30-39 | every element with another key stays, and nothing is added |
| SaveLoad.WithoutUnique | lib/save_load_adapter.js:86-96 | with unique keys, removing the first element with a key removes all of them, and the keys stay unique |
| SaveLoad.ReplaceKeepsUnique | lib/save_load_adapter.js:86-96 | remove-then-push keeps keys unique. The pushed element is last, its key occurs nowhere else and is found there, and every element with another key stays |
| SaveLoad.DropAll | lib/save_load_adapter.js:168-170 | `filter`: exactly the elements with another key remain, and the result is no longer than the list |
| SaveLoad.DropAllConcat | lib/save_load_adapter.js:168-170 | `filter` keeps order: the remainder of `a + b` is that of `a` followed by that of `b` |
| SaveLoad.Timestamp | lib/save_load_adapter.js:50 | `Math.round(ms / 1000)`: the seconds nearest to the time, with halves rounded up |
| SaveLoad.DrawingKey | lib/save_load_adapter.js:246-248 | the layout id, a '/', then the chart id |
| SaveLoad.DrawingKeyInjective | lib/save_load_adapter.js:246-248 | when layout ids hold no '/', two layout/chart pairs share a key exactly when they are the same pair |
| SaveLoad.DrawingKeyCollides | lib/save_load_adapter.js:246-248 | the key `layoutId/chartId` is not injective: ("a/b", "c") and ("a", "b/c") share one entry |
| SaveLoad.LastFor | lib/save_load_adapter.js:191-197 | the last source entry for a key, or -1: no later entry has that key |
| SaveLoad.LastSourceWins | lib/save_load_adapter.js:191-197 | the last source entry for a key decides it. A null state deletes the key, any other state is its value, and a key with no entry keeps its old value |
| SaveLoad.ApplySources | lib/save_load_adapter.js:191-197 | the source entries applied in order: no key appears that was neither there before nor named by an entry |
| SaveLoad.ApplySourcesStep | lib/save_load_adapter.js:191-197 | proof helper for the loop invariant: applying one more source entry to the entries applied so far |
| SaveLoad.Store.constructor | lib/save_load_adapter.js:10-24 | the store starts from the persisted collections, with no unsaved change |
| SaveLoad.Store.RemoveChart | lib/save_load_adapter.js:30-39 | Only the first chart with the id is removed, and the store is dirty. An unknown id is rejected with "The chart does not exist", and nothing changes |
| SaveLoad.Store.GenerateUniqueChartId | lib/save_load_adapter.js:218-226 | the first random draw that is not an existing chart id |
| SaveLoad.Store.SaveChart | lib/save_load_adapter.js:41-55 | A chart without an id gets a fresh one. A chart with an id first loses the stored chart with that id. The chart is then appended with the rounded save time, and the store is dirty |
| SaveLoad.SaveChartKeepsIdsUnique | lib/save_load_adapter.js:41-55 | saving under an existing id keeps ids unique. The saved chart is last, is the one the id now finds, and every other chart stays |
| SaveLoad.SaveFreshChartKeepsIdsUnique | lib/save_load_adapter.js:41-55 | saving under a fresh id keeps ids unique, and the id finds the new last chart |
| SaveLoad.Store.GetChartContent | lib/save_load_adapter.js:57-64 | the content of the first chart with the id. Otherwise "The chart does not exist" |
| SaveLoad.Store.RemoveStudyTemplate | lib/save_load_adapter.js:66-75 | Only the first template with the name is removed, and the store is dirty. An unknown name is rejected with "The study template does not exist", and nothing changes |
| SaveLoad.Store.GetStudyTemplateContent | lib/save_load_adapter.js:77-84 | the content of the first template with the name. Otherwise "The study template does not exist" |
| SaveLoad.Store.SaveStudyTemplate | lib/save_load_adapter.js:86-96 | the first template with the same name is dropped, the new one is appended, and the store is dirty |
| SaveLoad.SaveStudyTemplateReplaces | lib/save_load_adapter.js:86-96 | with unique names, the saved template replaces the old one. Names stay unique, the new template is last and is the one found, and others stay |
| SaveLoad.Store.RemoveDrawingTemplate | lib/save_load_adapter.js:102-114 | Removes the first template matching both name and tool, and the store is dirty. Otherwise "The drawing template does not exist", and nothing changes |
| SaveLoad.Store.LoadDrawingTemplate | lib/save_load_adapter.js:116-126 | the content of the first template matching both name and tool. Otherwise "The drawing template does not exist" |
| SaveLoad.Store.SaveDrawingTemplate | lib/save_load_adapter.js:128-145 | the first template with that name and tool is dropped, the new one is appended, and the store is dirty |
| SaveLoad.DrawingTemplateOtherToolKept | lib/save_load_adapter.js:128-145 | a template with the same name but another tool survives both save (with any content) and remove |
| SaveLoad.Store.DrawingTemplateNames | lib/save_load_adapter.js:147-151 | the template names, without tools, in order |
| SaveLoad.Store.ChartTemplateNames | lib/save_load_adapter.js:153-155 | the chart template names, in order |
| SaveLoad.Upserted | lib/save_load_adapter.js:157-165 | when the name exists, only its first template is replaced, in place, by the new content and every other element is unchanged (duplicates included). Otherwise the old list with the new template appended |
| SaveLoad.UpsertedThenFound | lib/save_load_adapter.js:157-181 | after a save, looking the name up finds the saved content, and templates of other names stay in place |
| SaveLoad.Store.SaveChartTemplate | lib/save_load_adapter.js:157-165 | the first template with the name gets the content in place, or a new one is appended, and the store is dirty |
| SaveLoad.Store.RemoveChartTemplate | lib/save_load_adapter.js:167-172 | every template with the name is removed, and the store is dirty |
| SaveLoad.DropAllThenAbsent | lib/save_load_adapter.js:167-181 | after removal the name is not found, and templates of other names stay |
| SaveLoad.Store.ChartTemplateContent | lib/save_load_adapter.js:174-181 | the first template's content, or nothing exactly when no template has the name |
| SaveLoad.Store.SaveLineToolsAndGroups | lib/save_load_adapter.js:183-199 | Without sources, nothing changes. Otherwise the sources are applied in order to the chart's drawings, created empty if absent. Other charts' drawings are unchanged, and the store is dirty |
| SaveLoad.Store.LoadLineToolsAndGroups | lib/save_load_adapter.js:201-216 | nothing for an empty layout id or an unknown layout/chart pair. Otherwise a copy of exactly that chart's drawings |

## Left out

- Timers: the 30-second catalog refresh, the 1-second retry after a failed fetch, the 1-second flush of a dirty store and the `symbolsReady` polling. The model's feed is created with its first catalog already published, and a refresh is an explicit `LoadSymbols` call.
- Concurrency: a refresh that overlaps a request. `loadSymbols` publishes `symbols` and `allSymbols` together (lib/udf.js:110-124), but `history` reads `allSymbols` through `checkSymbol` (lib/udf.js:249) and later, after awaits, reads `symbols` through `symbol` (lib/udf.js:312), so a refresh can land between the two reads. The model's `History` reads one catalog state.
- Network I/O and the exchange client classes (`lib/exchanges/*.js`). Their replies are inputs (`Fetch`, `Reply`, `Page`), and a `Fetch` already uses unified field names. The Binance client is not part of this model.
- `parseFloat` and floating point: prices and volumes stay the backend's strings, and only the position each one comes from is modelled. `round(1 / tickSize)` and `round(1 / priceIncrement)` are given integers on the raw record.
- Catalog.PriceScale: the case where `1 / parseFloat(...)` is `NaN` or infinite is not modelled.
- Text.Upper: upper-cases ASCII letters only, not the full Unicode case mapping of `toUpperCase`.
- The MEXC client as written (lib/exchanges/mexc.js:59-67) never parses the reply body: it resolves `{}` for every reply that has a body, or rejects. So `info.symbols.map` (lib/udf.js:62) always throws, MEXC always contributes no records, and no MEXC symbol reaches `history`. The model lets a MEXC fetch succeed or fail like the others, which is a generalisation; the as-written case is a failed fetch (`Udf.FailedBackendContributesNothing` with MEXC).
- Klines.ForwardHistory: requires that the backend eventually answers a short page or an error. A backend that keeps returning full pages makes the source loop forever, which the model does not represent.
- `search` limit: taken as a number, with 0 meaning "no limit". A limit that arrives as the string "0", which is truthy, is not modelled.
- `config()`: it only returns a constant description. Its resolution list is `Resolutions.Advertised`.
- JavaScript object-key details: inherited or prototype keys such as `__proto__`, and the enumeration order of keys in `asTable` and `Object.entries`. Tables and drawings are maps.
- `ticker`, `name`, `full_name` and `listed_exchange` are copies of the symbol or exchange tag. They appear in the field map and search hits but are not separate record fields.
- `localStorage`, `JSON.parse`/`JSON.stringify` and `structuredClone`: the store is built from already-decoded collections, and contents and drawing states are opaque strings.
- `getAllCharts` and `getAllStudyTemplates` return a field unchanged, so they are read directly from `Store.charts` and `Store.studyTemplates`.
- SaveLoad.Store.SaveChart: the unhandled rejection raised when the given id is not stored, and the in-place write of the generated id into the caller's object, are not modelled.
- SaveLoad.Store.GenerateUniqueChartId: random draws are an input sequence. It requires that some draw is fresh; the source's loop would otherwise keep drawing.
- SaveLoad.Store.SaveLineToolsAndGroups: a state of `undefined`, which is stored rather than deleted, is not distinguished from other values, and `sources` is given as a list of entries.
- Identifiers that are not strings (`undefined` or `null` ids and layout ids) are modelled as the empty string, the falsy case.
