/** The market-data client: a quote request and a history request against the
    Yahoo Finance chart endpoint, and the reconciliation of one holding with
    the live price. The HTTP exchange itself is a parameter: a `Network` maps
    each request the client can issue to the reply it gets. */
module YahooFinance {
  import opened Wrappers
  import opened PortfolioData

  // ---------------------------------------------------------------------------
  // The chart endpoint

  datatype Meta = Meta(regularMarketPrice: real, previousClose: real, chartPreviousClose: real)

  /** One chart result; `closes` holds `indicators.quote[i].close` for each
      quote series `i`, a missing close being `None` (JSON `null`). */
  datatype ChartResult = ChartResult(meta: Meta, timestamp: seq<int>, closes: seq<seq<Option<real>>>)

  /** The `chart` object of the JSON body. `error` is `Some` when the body
      carries an error object (always truthy) and `None` when it is `null`. */
  datatype Chart = Chart(result: seq<ChartResult>, error: Option<string>)

  /** What a request comes back with: no response at all, or a response with
      its `ok` flag, status text and body, the body being `None` when it is
      not valid JSON. */
  datatype Reply =
    | NetworkFailure
    | HttpReply(ok: bool, statusText: string, body: Option<Chart>)

  /** The two requests the client issues: `?interval=1d` for a quote, and
      `?period1=..&period2=..&interval=1d` (seconds since the epoch) for a
      history. */
  datatype Request =
    | QuoteRequest(ticker: string)
    | HistoryRequest(ticker: string, period1: int, period2: int)

  type Network = Request -> Reply

  /** Why a fetch failed; each one is thrown, logged and rethrown. */
  datatype FetchError =
    | NetworkError
    | ApiError(statusText: string)
    | MalformedJson
    | DataError(description: string)
    | MissingData

  /** The checks shared by both fetches: a non-ok response, a body that is not
      JSON or a body with an error object are failures, and so is a body with
      no result (reading `result[0].meta` throws). Only then is the first
      result read. */
  function ReadChart(reply: Reply): (r: Result<ChartResult, FetchError>)
    ensures r.Success? <==>
      && reply.HttpReply? && reply.ok && reply.body.Some?
      && reply.body.value.error.None? && reply.body.value.result != []
    ensures r.Success? ==> r.value == reply.body.value.result[0]
  {
    match reply
    case NetworkFailure => Failure(NetworkError)
    case HttpReply(ok, statusText, body) =>
      if !ok then Failure(ApiError(statusText))
      else if body.None? then Failure(MalformedJson)
      else if body.value.error.Some? then Failure(DataError(body.value.error.value))
      else if body.value.result == [] then Failure(MissingData)
      else Success(body.value.result[0])
  }

  // ---------------------------------------------------------------------------
  // Current price

  datatype Quote = Quote(currentPrice: real, previousClose: real, dailyChange: real)

  /** `(currentPrice - previousClose) / previousClose * 100`; the source does
      not guard against a zero previous close. */
  function PriceChangePercent(currentPrice: real, previousClose: real): (p: real)
    requires previousClose != 0.0
    ensures p * previousClose == 100.0 * (currentPrice - previousClose)
    ensures previousClose > 0.0 ==> (p > 0.0 <==> currentPrice > previousClose)
    ensures previousClose > 0.0 ==> (p == 0.0 <==> currentPrice == previousClose)
  {
    Percentage(currentPrice - previousClose, previousClose)
  }

  /** The reply can be turned into a quote without dividing by zero. */
  predicate QuoteDefined(reply: Reply)
  {
    ReadChart(reply).Success? ==> ReadChart(reply).value.meta.previousClose != 0.0
  }

  /** `fetchCurrentPrice`: the market price, the previous close and the
      change between them. */
  function FetchCurrentPrice(reply: Reply): (r: Result<Quote, FetchError>)
    requires QuoteDefined(reply)
    ensures r.Success? <==> ReadChart(reply).Success?
    ensures r.Failure? ==> r.error == ReadChart(reply).error
    ensures r.Success? ==>
      var meta := ReadChart(reply).value.meta;
      && r.value.currentPrice == meta.regularMarketPrice
      && r.value.previousClose == meta.previousClose
      && r.value.dailyChange * meta.previousClose == 100.0 * (meta.regularMarketPrice - meta.previousClose)
  {
    match ReadChart(reply)
    case Failure(e) => Failure(e)
    case Success(result) =>
      var currentPrice := result.meta.regularMarketPrice;
      var previousClose := result.meta.previousClose;
      Success(Quote(currentPrice, previousClose, PriceChangePercent(currentPrice, previousClose)))
  }

  // ---------------------------------------------------------------------------
  // Price history

  /** `closes.filter(price => price !== null)`. */
  function FilterCloses(closes: seq<Option<real>>): (r: seq<real>)
    ensures |r| <= |closes|
    ensures forall x :: x in r <==> Some(x) in closes
  {
    if closes == [] then []
    else
      var init, last := closes[..|closes| - 1], closes[|closes| - 1];
      assert closes == init + [last];
      FilterCloses(init) + (if last.Some? then [last.value] else [])
  }

  /** Filtering keeps the order: it distributes over concatenation. */
  lemma {:induction false} FilterClosesAppend(xs: seq<Option<real>>, ys: seq<Option<real>>)
    ensures FilterCloses(xs + ys) == FilterCloses(xs) + FilterCloses(ys)
  {
    if ys == [] {
      assert xs + ys == xs;
    } else {
      var init := ys[..|ys| - 1];
      FilterClosesAppend(xs, init);
      assert (xs + ys)[..|xs + ys| - 1] == xs + init;
    }
  }

  /** A series without gaps comes back unchanged. */
  lemma {:induction false} FilterClosesKeepsPresent(xs: seq<real>)
    ensures FilterCloses(seq(|xs|, i requires 0 <= i < |xs| => Some(xs[i]))) == xs
  {
    if xs != [] {
      var init := xs[..|xs| - 1];
      FilterClosesKeepsPresent(init);
      var wrapped := seq(|xs|, i requires 0 <= i < |xs| => Some(xs[i]));
      assert wrapped[..|xs| - 1] == seq(|init|, i requires 0 <= i < |init| => Some(init[i]));
      assert xs == init + [xs[|xs| - 1]];
    }
  }

  /** Missing closes are dropped, not kept as zeros. */
  lemma {:induction false} FilterClosesDropsMissing(xs: seq<Option<real>>)
    ensures FilterCloses(xs + [None]) == FilterCloses(xs)
    ensures FilterCloses([None] + xs) == FilterCloses(xs)
  {
    FilterClosesAppend(xs, [None]);
    FilterClosesAppend([None], xs);
    assert FilterCloses([None]) == [];
  }

  /** The request window: `period2` is now in whole seconds, rounded down,
      and `period1` is `days` whole days earlier. */
  function HistoryWindow(nowMillis: int, days: int): (w: (int, int))
    ensures w.1 * 1000 <= nowMillis < w.1 * 1000 + 1000
    ensures w.1 - w.0 == days * 86400
  {
    var endDate := nowMillis / 1000;
    var startDate := endDate - days * 24 * 60 * 60;
    (startDate, endDate)
  }

  /** `fetchHistoricalPrices`' default window length. */
  const DefaultHistoryDays := 30

  /** `fetchHistoricalPrices`: the non-null closes of the first quote series. */
  function FetchHistoricalPrices(reply: Reply): (r: Result<seq<real>, FetchError>)
    ensures r.Success? <==> ReadChart(reply).Success? && ReadChart(reply).value.closes != []
    ensures r.Success? ==> r.value == FilterCloses(ReadChart(reply).value.closes[0])
  {
    match ReadChart(reply)
    case Failure(e) => Failure(e)
    case Success(result) =>
      if result.closes == [] then Failure(MissingData)
      else Success(FilterCloses(result.closes[0]))
  }

  // ---------------------------------------------------------------------------
  // Reconciling a holding with the market

  function QuoteReply(asset: Asset, net: Network): Reply
  {
    net(QuoteRequest(asset.ticker))
  }

  function HistoryReply(asset: Asset, nowMillis: int, net: Network): Reply
  {
    var w := HistoryWindow(nowMillis, DefaultHistoryDays);
    net(HistoryRequest(asset.ticker, w.0, w.1))
  }

  /** What reconciling `asset` needs to be defined: a non-cash holding whose
      quote arrives needs a non-zero previous close to compute the daily
      change, and one whose history arrives too needs a non-zero price to
      divide its value by. Cash and every failure path divide nothing. */
  predicate CanReprice(asset: Asset, nowMillis: int, net: Network)
  {
    asset.assetType != Cash ==>
      && QuoteDefined(QuoteReply(asset, net))
      && ((FetchCurrentPrice(QuoteReply(asset, net)).Success? &&
           FetchHistoricalPrices(HistoryReply(asset, nowMillis, net)).Success?) ==> asset.currentPrice != 0.0)
  }

  /** The requests reconciling `asset` issues, in order: none for cash, the
      quote first, and the 30-day history exactly when the quote arrived. */
  function RequestsIssued(asset: Asset, nowMillis: int, net: Network): (rs: seq<Request>)
    requires asset.assetType != Cash ==> QuoteDefined(QuoteReply(asset, net))
    ensures asset.assetType == Cash <==> rs == []
    ensures rs != [] ==> rs[0] == QuoteRequest(asset.ticker)
    ensures |rs| <= 2
    ensures |rs| == 2 <==> asset.assetType != Cash && FetchCurrentPrice(QuoteReply(asset, net)).Success?
    ensures |rs| == 2 ==>
      var w := HistoryWindow(nowMillis, DefaultHistoryDays);
      rs[1] == HistoryRequest(asset.ticker, w.0, w.1)
  {
    if asset.assetType == Cash then []
    else if FetchCurrentPrice(QuoteReply(asset, net)).Failure? then [QuoteRequest(asset.ticker)]
    else
      var w := HistoryWindow(nowMillis, DefaultHistoryDays);
      [QuoteRequest(asset.ticker), HistoryRequest(asset.ticker, w.0, w.1)]
  }

  /** The holding at the new price: same number of shares, new value. */
  function Reprice(asset: Asset, q: Quote, history: seq<real>): (r: Asset)
    requires asset.currentPrice != 0.0
    ensures SameHolding(asset, r)
    ensures r.currentPrice == q.currentPrice && r.dailyChange == q.dailyChange && r.historicalPrices == history
    ensures r.value * asset.currentPrice == asset.value * q.currentPrice
  {
    SharesKept(asset.value, asset.currentPrice, q.currentPrice);
    var shares := asset.value / asset.currentPrice;
    var newValue := shares * q.currentPrice;
    asset.(currentPrice := q.currentPrice, dailyChange := q.dailyChange,
           historicalPrices := history, value := newValue)
  }

  /** Everything but the four market fields is the same. */
  predicate SameHolding(a: Asset, b: Asset)
  {
    && a.id == b.id && a.name == b.name && a.ticker == b.ticker && a.assetType == b.assetType
    && a.allocation == b.allocation && a.purchasePrice == b.purchasePrice
    && a.sector == b.sector && a.maturity == b.maturity && a.yieldRate == b.yieldRate && a.rating == b.rating
  }

  lemma SharesKept(value: real, oldPrice: real, newPrice: real)
    requires oldPrice != 0.0
    ensures (value / oldPrice * newPrice) * oldPrice == value * newPrice
  {
    assert value / oldPrice * oldPrice == value;
  }

  /** `updateAssetWithLiveData`: cash is returned as it is; any other holding
      takes the quote's price and daily change and the fetched history, and
      keeps its number of shares; if either fetch fails the holding is
      returned unchanged. */
  function UpdateAssetWithLiveData(asset: Asset, nowMillis: int, net: Network): (r: Asset)
    requires CanReprice(asset, nowMillis, net)
    ensures SameHolding(asset, r)
    ensures asset.assetType == Cash ==> r == asset
    ensures asset.assetType != Cash && FetchCurrentPrice(QuoteReply(asset, net)).Failure? ==> r == asset
    ensures asset.assetType != Cash && FetchCurrentPrice(QuoteReply(asset, net)).Success? ==>
      var q := FetchCurrentPrice(QuoteReply(asset, net)).value;
      var h := FetchHistoricalPrices(HistoryReply(asset, nowMillis, net));
      && (h.Failure? ==> r == asset)
      && (h.Success? ==>
            && r.currentPrice == q.currentPrice && r.dailyChange == q.dailyChange
            && r.historicalPrices == h.value
            && r.value * asset.currentPrice == asset.value * r.currentPrice)
  {
    if asset.assetType == Cash then asset
    else
      match FetchCurrentPrice(QuoteReply(asset, net))
      case Failure(_) => asset
      case Success(q) =>
        match FetchHistoricalPrices(HistoryReply(asset, nowMillis, net))
        case Failure(_) => asset
        case Success(history) => Reprice(asset, q, history)
  }

  /** The reconciled holding depends on the network only through the
      requests it issues: two networks that answer those requests alike give
      the same result. */
  lemma UpdateDependsOnRequestsIssued(asset: Asset, nowMillis: int, net1: Network, net2: Network)
    requires CanReprice(asset, nowMillis, net1)
    requires forall r :: r in RequestsIssued(asset, nowMillis, net1) ==> net1(r) == net2(r)
    ensures CanReprice(asset, nowMillis, net2)
    ensures UpdateAssetWithLiveData(asset, nowMillis, net1) == UpdateAssetWithLiveData(asset, nowMillis, net2)
  {
    if asset.assetType != Cash {
      var rs := RequestsIssued(asset, nowMillis, net1);
      assert rs[0] in rs;
      assert QuoteReply(asset, net1) == QuoteReply(asset, net2);
      if |rs| == 2 {
        assert rs[1] in rs;
        assert HistoryReply(asset, nowMillis, net1) == HistoryReply(asset, nowMillis, net2);
      }
    }
  }

  /** Apple's sample holding, 56250 at 187.50, is 300 shares: at 200 it is
      worth 60000. */
  lemma RepriceExample(asset: Asset, history: seq<real>)
    requires asset.value == 56250.0 && asset.currentPrice == 187.5
    ensures Reprice(asset, Quote(200.0, 190.0, 100.0 / 19.0), history).value == 60000.0
  {
    assert asset.value / asset.currentPrice == 300.0;
  }
}
