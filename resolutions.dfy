/**
 * The resolution translator: one fixed table per exchange mapping a
 * canonical resolution token to the backend's own interval name, and the
 * resolutions the feed and each client advertise.
 */
module Resolutions {
  import opened Base
  import opened Catalog

  /** The resolutions the feed's configuration advertises. */
  const Advertised: seq<string> := ["1", "5", "15", "30", "60", "240", "1D", "3D", "1W", "1M"]

  /** The resolutions the MEXC and KuCoin clients advertise for their records. */
  const MexcKucoinAdvertised: seq<string> := ["1", "5", "15", "30", "60", "240", "1D", "3D", "1W", "1M"]

  /** The resolutions the BitMart client advertises for its records. */
  const BitmartAdvertised: seq<string> := ["1", "5", "15", "30", "60", "240", "1440", "10080", "43200"]

  /** The interval table of an exchange. */
  function Intervals(ex: Exchange): map<string, string> {
    match ex
    case Binance =>
      map["1" := "1m", "5" := "5m", "15" := "15m", "30" := "30m", "60" := "1h", "240" := "4h",
          "D" := "1d", "1D" := "1d", "W" := "1w", "1W" := "1w", "M" := "1M", "1M" := "1M"]
    case Mexc =>
      map["1" := "1m", "5" := "5m", "15" := "15m", "30" := "30m", "60" := "60m", "240" := "4h",
          "D" := "1d", "1D" := "1d", "W" := "1W", "1W" := "1W", "M" := "1M", "1M" := "1M"]
    case Kucoin =>
      map["1" := "1min", "5" := "5min", "15" := "15min", "30" := "30min", "60" := "1hour", "240" := "4hour",
          "D" := "1day", "1D" := "1day", "W" := "1week", "1W" := "1week", "M" := "1month", "1M" := "1month"]
    case Bitmart =>
      map["1" := "1", "5" := "5", "15" := "15", "30" := "30", "60" := "60", "240" := "240",
          "1440" := "1d", "10080" := "1w", "43200" := "1m"]
  }

  /**
   * The lookup with its falsiness check: the interval for `token` on `ex`,
   * or `InvalidResolution` when the table has no entry (or an empty one:
   * no table has one, so the error means exactly "no entry").
   */
  function Translate(ex: Exchange, token: string): (r: Result<string, UdfError>)
    ensures r.Ok? <==> token in Intervals(ex)
    ensures r.Ok? ==> r.value == Intervals(ex)[token] && r.value != ""
    ensures r.Err? ==> r.error == InvalidResolution
  {
    if token in Intervals(ex) && Intervals(ex)[token] != "" then Ok(Intervals(ex)[token])
    else Err(InvalidResolution)
  }

  /** "3D" is advertised by the feed but no exchange can serve it. */
  lemma ThreeDaysUnsupported(ex: Exchange)
    ensures "3D" in Advertised
    ensures Translate(ex, "3D") == Err(InvalidResolution)
  {
    assert Advertised[7] == "3D";
  }

  /** BitMart has no daily token of the canonical vocabulary. */
  lemma BitmartHasNoDaily()
    ensures Translate(Bitmart, "D") == Err(InvalidResolution)
    ensures Translate(Bitmart, "1D") == Err(InvalidResolution)
  {
  }

  /**
   * Every resolution BitMart's records advertise can be served, and every
   * one the MEXC and KuCoin records advertise except "3D".
   */
  lemma AdvertisedResolutionsServed(token: string)
    ensures token in BitmartAdvertised ==> Translate(Bitmart, token).Ok?
    ensures token in MexcKucoinAdvertised && token != "3D" ==>
      Translate(Mexc, token).Ok? && Translate(Kucoin, token).Ok?
  {
  }

  /** The daily token means the same on the three exchanges that have it. */
  lemma DailyTokens()
    ensures Translate(Binance, "D") == Translate(Binance, "1D") == Ok("1d")
    ensures Translate(Mexc, "D") == Translate(Mexc, "1D") == Ok("1d")
    ensures Translate(Kucoin, "D") == Translate(Kucoin, "1D") == Ok("1day")
  {
  }
}
