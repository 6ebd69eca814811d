/**
  The request URLs the `get_*` helpers of kraken.py and bybit.py build with
  f-strings. Both files use the same templates except for the order book;
  `api` is the file's `API_LINK`.
 */
module Endpoints {
  import opened Py
  import opened Calls
  import opened Query
  import Decimal

  /** kraken.py `get_order_book(pair, depth)`. */
  function DepthUrl(api: string, pair: Value, depth: Value): string {
    api + "Depth?pair=" + Format(pair) + "&count=" + Format(depth)
  }

  /** bybit.py `get_order_book(pair)`. */
  function OrderBookL2Url(api: string, pair: Value): string {
    api + "orderBook/L2?symbol=" + Format(pair)
  }

  /** `get_trades(pair, since)`. */
  function TradesUrl(api: string, pair: Value, since: Value): string {
    api + "Trades?pair=" + Format(pair) + "&since=" + Format(since)
  }

  /** `get_spreads(pair, since)`. */
  function SpreadsUrl(api: string, pair: Value, since: Value): string {
    api + "Spreads?pair=" + Format(pair) + "&since=" + Format(since)
  }

  /** `get_candles(pair, granularity, since=None)`: `since` is appended only when it is not None. */
  function CandlesUrl(api: string, pair: Value, granularity: Value, since: Value): string {
    if since == VNone then
      api + "OHLC?pair=" + Format(pair) + "&interval=" + Format(granularity)
    else
      api + "OHLC?pair=" + Format(pair) + "&interval=" + Format(granularity) + "&since=" + Format(since)
  }

  /** `get_ticker(pair)`. */
  function TickerUrl(api: string, pair: Value): string {
    api + "Ticker?pair=" + Format(pair)
  }

  /** A value whose rendering needs no escaping inside a query string. */
  predicate Clean(v: Value) {
    '&' !in Format(v)
  }

  lemma IntsAreClean(i: int)
    ensures Clean(VInt(i))
  {
    var s := Decimal.IntStr(i);
    assert forall k :: 0 <= k < |s| ==> s[k] != '&';
  }

  // Each helper's f-string URL is the base link followed by a rendered request.

  lemma DepthUrlRenders(api: string, pair: Value, depth: Value)
    ensures DepthUrl(api, pair, depth) == api + Render(Request("Depth", [("pair", Format(pair)), ("count", Format(depth))]))
  {
    RenderTwo("Depth", "pair", Format(pair), "count", Format(depth));
  }

  lemma OrderBookL2UrlRenders(api: string, pair: Value)
    ensures OrderBookL2Url(api, pair) == api + Render(Request("orderBook/L2", [("symbol", Format(pair))]))
  {
    RenderOne("orderBook/L2", "symbol", Format(pair));
  }

  lemma TradesUrlRenders(api: string, pair: Value, since: Value)
    ensures TradesUrl(api, pair, since) == api + Render(Request("Trades", [("pair", Format(pair)), ("since", Format(since))]))
  {
    RenderTwo("Trades", "pair", Format(pair), "since", Format(since));
  }

  lemma SpreadsUrlRenders(api: string, pair: Value, since: Value)
    ensures SpreadsUrl(api, pair, since) == api + Render(Request("Spreads", [("pair", Format(pair)), ("since", Format(since))]))
  {
    RenderTwo("Spreads", "pair", Format(pair), "since", Format(since));
  }

  lemma TickerUrlRenders(api: string, pair: Value)
    ensures TickerUrl(api, pair) == api + Render(Request("Ticker", [("pair", Format(pair))]))
  {
    RenderOne("Ticker", "pair", Format(pair));
  }

  function CandlesParams(pair: Value, granularity: Value, since: Value): seq<(string, string)> {
    [("pair", Format(pair)), ("interval", Format(granularity))]
      + (if since == VNone then [] else [("since", Format(since))])
  }

  lemma CandlesUrlRendersWithoutSince(api: string, p: string, g: string)
    ensures api + "OHLC?pair=" + p + "&interval=" + g
         == api + Render(Request("OHLC", [("pair", p), ("interval", g)]))
  {
    RenderTwo("OHLC", "pair", p, "interval", g);
  }

  lemma CandlesUrlRendersWithSince(api: string, p: string, g: string, since: string)
    ensures api + "OHLC?pair=" + p + "&interval=" + g + "&since=" + since
         == api + Render(Request("OHLC", [("pair", p), ("interval", g), ("since", since)]))
  {
    RenderThree("OHLC", "pair", p, "interval", g, "since", since);
  }

  lemma CandlesUrlRenders(api: string, pair: Value, granularity: Value, since: Value)
    ensures CandlesUrl(api, pair, granularity, since) == api + Render(Request("OHLC", CandlesParams(pair, granularity, since)))
  {
    var p, g := Format(pair), Format(granularity);
    if since == VNone {
      assert CandlesUrl(api, pair, granularity, since) == api + "OHLC?pair=" + p + "&interval=" + g;
      assert CandlesParams(pair, granularity, since) == [("pair", p), ("interval", g)];
      CandlesUrlRendersWithoutSince(api, p, g);
    } else {
      var s := Format(since);
      assert CandlesUrl(api, pair, granularity, since) == api + "OHLC?pair=" + p + "&interval=" + g + "&since=" + s;
      assert CandlesParams(pair, granularity, since) == [("pair", p), ("interval", g), ("since", s)];
      CandlesUrlRendersWithSince(api, p, g, s);
    }
  }

  /** The order-book request asks for `Depth` with the pair and the depth as `count`. */
  lemma DepthUrlDecodes(api: string, pair: Value, depth: Value)
    requires Clean(pair) && Clean(depth)
    ensures ParseUrl(api, DepthUrl(api, pair, depth))
         == Some(Request("Depth", [("pair", Format(pair)), ("count", Format(depth))]))
  {
    DepthUrlRenders(api, pair, depth);
    UrlParse(api, Request("Depth", [("pair", Format(pair)), ("count", Format(depth))]));
  }

  /** Bybit's order-book request carries the pair as `symbol` and nothing else. */
  lemma OrderBookL2UrlDecodes(api: string, pair: Value)
    requires Clean(pair)
    ensures ParseUrl(api, OrderBookL2Url(api, pair))
         == Some(Request("orderBook/L2", [("symbol", Format(pair))]))
  {
    OrderBookL2UrlRenders(api, pair);
    UrlParse(api, Request("orderBook/L2", [("symbol", Format(pair))]));
  }

  /** The trades request asks for `Trades` with the pair and `since`. */
  lemma TradesUrlDecodes(api: string, pair: Value, since: Value)
    requires Clean(pair) && Clean(since)
    ensures ParseUrl(api, TradesUrl(api, pair, since))
         == Some(Request("Trades", [("pair", Format(pair)), ("since", Format(since))]))
  {
    TradesUrlRenders(api, pair, since);
    UrlParse(api, Request("Trades", [("pair", Format(pair)), ("since", Format(since))]));
  }

  /** The spreads request asks for `Spreads` with the pair and `since`. */
  lemma SpreadsUrlDecodes(api: string, pair: Value, since: Value)
    requires Clean(pair) && Clean(since)
    ensures ParseUrl(api, SpreadsUrl(api, pair, since))
         == Some(Request("Spreads", [("pair", Format(pair)), ("since", Format(since))]))
  {
    SpreadsUrlRenders(api, pair, since);
    UrlParse(api, Request("Spreads", [("pair", Format(pair)), ("since", Format(since))]));
  }

  /** The ticker request asks for `Ticker` with the pair only. */
  lemma TickerUrlDecodes(api: string, pair: Value)
    requires Clean(pair)
    ensures ParseUrl(api, TickerUrl(api, pair)) == Some(Request("Ticker", [("pair", Format(pair))]))
  {
    TickerUrlRenders(api, pair);
    UrlParse(api, Request("Ticker", [("pair", Format(pair))]));
  }

  lemma CandlesPlain(pair: Value, granularity: Value, since: Value)
    requires Clean(pair) && Clean(granularity) && Clean(since)
    ensures Plain(Request("OHLC", CandlesParams(pair, granularity, since)))
  {
    var p, g := Format(pair), Format(granularity);
    var ps := CandlesParams(pair, granularity, since);
    assert '?' !in "OHLC";
    assert '&' !in "pair" && '=' !in "pair" && '&' !in "interval" && '=' !in "interval";
    if since == VNone {
      assert ps == [("pair", p), ("interval", g)];
    } else {
      assert '&' !in "since" && '=' !in "since";
      assert ps == [("pair", p), ("interval", g), ("since", Format(since))];
    }
  }

  /** The candles request decodes to `OHLC` with the candles parameters. */
  lemma CandlesUrlDecodesTo(api: string, pair: Value, granularity: Value, since: Value)
    requires Clean(pair) && Clean(granularity) && Clean(since)
    ensures ParseUrl(api, CandlesUrl(api, pair, granularity, since)) == Some(Request("OHLC", CandlesParams(pair, granularity, since)))
  {
    CandlesPlain(pair, granularity, since);
    CandlesUrlRenders(api, pair, granularity, since);
    UrlParse(api, Request("OHLC", CandlesParams(pair, granularity, since)));
  }

  /**
    The candles request always asks for `OHLC` with `pair` and `interval`
    first; a `since` parameter follows exactly when `since` is not None.
   */
  lemma CandlesUrlDecodes(api: string, pair: Value, granularity: Value, since: Value)
    requires Clean(pair) && Clean(granularity) && Clean(since)
    ensures ParseUrl(api, CandlesUrl(api, pair, granularity, since)).Some?
    ensures var q := ParseUrl(api, CandlesUrl(api, pair, granularity, since)).value;
            && q.path == "OHLC"
            && |q.params| >= 2
            && q.params[..2] == [("pair", Format(pair)), ("interval", Format(granularity))]
            && (|q.params| == 3 <==> since != VNone)
            && (|q.params| == 2 <==> since == VNone)
            && (since != VNone ==> q.params[2] == ("since", Format(since)))
  {
    CandlesUrlDecodesTo(api, pair, granularity, since);
  }

  /** Both candles URLs share the `OHLC?pair=...&interval=...` prefix; `since` only extends it. */
  lemma CandlesUrlSinceExtends(api: string, pair: Value, granularity: Value, since: Value)
    requires since != VNone
    ensures CandlesUrl(api, pair, granularity, since) == CandlesUrl(api, pair, granularity, VNone) + "&since=" + Format(since)
  {
  }
}
