/** The portfolio's data model, the static sample holdings and the metrics
    and allocation breakdowns computed from a list of holdings. */
module PortfolioData {
  import opened Wrappers
  import opened GroupBy

  /** The closed set of asset classes. */
  datatype AssetType = Equity | FixedIncome | Cash | Alternative

  /** The string the asset class is stored as, which is also its dictionary key. */
  function TypeName(t: AssetType): string
  {
    match t
    case Equity => "equity"
    case FixedIncome => "fixed-income"
    case Cash => "cash"
    case Alternative => "alternative"
  }

  /** A holding. `assetType` is the record's `type` field and `yieldRate` its
      `yield` field (both words are reserved in Dafny); the optional fields are
      `None` where the record leaves them `undefined`. */
  datatype Asset = Asset(
    id: string,
    name: string,
    ticker: string,
    assetType: AssetType,
    allocation: real,
    value: real,
    purchasePrice: real,
    currentPrice: real,
    dailyChange: real,
    historicalPrices: seq<real>,
    sector: Option<string>,
    maturity: Option<string>,
    yieldRate: Option<real>,
    rating: Option<string>)

  datatype PortfolioMetrics = PortfolioMetrics(
    totalValue: real,
    dailyChange: real,
    dailyChangePercent: real,
    weeklyChange: real,
    weeklyChangePercent: real,
    monthlyChange: real,
    monthlyChangePercent: real,
    yearlyChange: real,
    yearlyChangePercent: real,
    allTimeChange: real,
    allTimeChangePercent: real,
    volatility: real,
    sharpeRatio: real,
    averageYield: real,
    duration: Option<real>)

  /** One entry of a breakdown: both the by-class (`type`, value, percentage)
      and the by-sector (`sector`, value, percentage) records have this shape;
      `name` holds the `type` or `sector` string. */
  datatype Allocation = Allocation(name: string, value: real, percentage: real)

  // ---------------------------------------------------------------------------
  // Sums over the holdings

  /** `assets.reduce((sum, asset) => sum + asset.value, 0)`. */
  function TotalValue(assets: seq<Asset>): real
  {
    if assets == [] then 0.0 else TotalValue(assets[..|assets| - 1]) + assets[|assets| - 1].value
  }

  /** Holdings of non-negative value add up to a non-negative total. */
  lemma {:induction false} TotalValueNonNegative(assets: seq<Asset>)
    requires forall a :: a in assets ==> a.value >= 0.0
    ensures TotalValue(assets) >= 0.0
  {
    if assets != [] {
      var init := assets[..|assets| - 1];
      assert forall a :: a in init ==> a in assets;
      TotalValueNonNegative(init);
      assert assets[|assets| - 1] in assets;
    }
  }

  /** The currency amount the holdings moved today: the sum of
      `value * dailyChange / 100`. */
  function DailyChangeAmount(assets: seq<Asset>): real
  {
    if assets == [] then 0.0
    else
      var a := assets[|assets| - 1];
      DailyChangeAmount(assets[..|assets| - 1]) + a.value * a.dailyChange / 100.0
  }

  /** `part / whole * 100`. The source divides without a guard. */
  function Percentage(part: real, whole: real): (p: real)
    requires whole != 0.0
    ensures p * whole == 100.0 * part
  {
    part / whole * 100.0
  }

  /** The portfolio's daily change as a percentage of its total value. */
  function DailyChangePercent(assets: seq<Asset>): (p: real)
    requires TotalValue(assets) != 0.0
    ensures p * TotalValue(assets) == 100.0 * DailyChangeAmount(assets)
  {
    Percentage(DailyChangeAmount(assets), TotalValue(assets))
  }

  lemma {:induction false} TotalValueAppend(xs: seq<Asset>, ys: seq<Asset>)
    ensures TotalValue(xs + ys) == TotalValue(xs) + TotalValue(ys)
  {
    if ys == [] {
      assert xs + ys == xs;
    } else {
      TotalValueAppend(xs, ys[..|ys| - 1]);
      assert (xs + ys)[..|xs + ys| - 1] == xs + ys[..|ys| - 1];
    }
  }

  /** With non-negative values, the daily change amount lies between the
      smallest and the largest per-asset daily change applied to the whole
      portfolio. */
  lemma {:induction false} DailyChangeAmountBounds(assets: seq<Asset>, lo: real, hi: real)
    requires forall a :: a in assets ==> a.value >= 0.0 && lo <= a.dailyChange <= hi
    ensures lo * TotalValue(assets) <= 100.0 * DailyChangeAmount(assets) <= hi * TotalValue(assets)
  {
    if assets != [] {
      var init := assets[..|assets| - 1];
      assert forall x :: x in init ==> x in assets;
      DailyChangeAmountBounds(init, lo, hi);
      assert assets[|assets| - 1] in assets;
      LastAssetBounds(assets, lo, hi);
    }
  }

  lemma LastAssetBounds(assets: seq<Asset>, lo: real, hi: real)
    requires assets != []
    requires var init := assets[..|assets| - 1];
      lo * TotalValue(init) <= 100.0 * DailyChangeAmount(init) <= hi * TotalValue(init)
    requires var a := assets[|assets| - 1]; a.value >= 0.0 && lo <= a.dailyChange <= hi
    ensures lo * TotalValue(assets) <= 100.0 * DailyChangeAmount(assets) <= hi * TotalValue(assets)
  {
    var init := assets[..|assets| - 1];
    var a := assets[|assets| - 1];
    BoundsStep(TotalValue(init), DailyChangeAmount(init), a.value, a.dailyChange, lo, hi,
               TotalValue(assets), DailyChangeAmount(assets));
  }

  lemma BoundsStep(t0: real, d0: real, v: real, c: real, lo: real, hi: real, t: real, d: real)
    requires lo * t0 <= 100.0 * d0 <= hi * t0
    requires v >= 0.0 && lo <= c <= hi
    requires t == t0 + v && d == d0 + v * c / 100.0
    ensures lo * t <= 100.0 * d <= hi * t
  {
    ScaleBetween(v, lo, c, hi);
    assert lo * t == lo * t0 + lo * v;
    assert hi * t == hi * t0 + hi * v;
  }

  /** A non-negative factor keeps an ordering. */
  lemma ScaleBetween(v: real, lo: real, x: real, hi: real)
    requires v >= 0.0 && lo <= x <= hi
    ensures lo * v <= v * x <= hi * v
  {
    assert v * (x - lo) >= 0.0;
    assert v * (hi - x) >= 0.0;
  }

  /** Dividing an ordering by a positive factor keeps it. */
  lemma CancelPositive(a: real, b: real, t: real)
    requires t > 0.0 && a * t <= b * t
    ensures a <= b
  {
  }

  /** The daily change percentage is a value-weighted mean of the per-asset
      daily changes: it lies within their range. */
  lemma DailyChangePercentIsWeightedMean(assets: seq<Asset>, lo: real, hi: real)
    requires forall a :: a in assets ==> a.value >= 0.0 && lo <= a.dailyChange <= hi
    requires TotalValue(assets) > 0.0
    ensures lo <= DailyChangePercent(assets) <= hi
  {
    DailyChangeAmountBounds(assets, lo, hi);
    PercentBetween(DailyChangePercent(assets), TotalValue(assets), DailyChangeAmount(assets), lo, hi);
  }

  lemma PercentBetween(p: real, t: real, d: real, lo: real, hi: real)
    requires t > 0.0 && p * t == 100.0 * d
    requires lo * t <= 100.0 * d <= hi * t
    ensures lo <= p <= hi
  {
    CancelPositive(lo, p, t);
    CancelPositive(p, hi, t);
  }

  // ---------------------------------------------------------------------------
  // Sample price histories

  /** `Number(x.toFixed(2))` on an exact real: the nearest multiple of 0.01,
      ties away from zero (toFixed rounds the magnitude and keeps the sign). */
  function ToFixed2(x: real): (r: real)
    ensures -0.005 <= r - x <= 0.005
    ensures (100.0 * r).Floor as real == 100.0 * r
  {
    if x < 0.0 then
      var m := RoundMagnitude2(-x);
      var k := (100.0 * m).Floor;
      assert 100.0 * -m == (-k) as real;
      WholeFloor(-k);
      -m
    else RoundMagnitude2(x)
  }

  lemma WholeFloor(k: int)
    ensures (k as real).Floor == k
  {
  }

  function RoundMagnitude2(x: real): (r: real)
    requires x >= 0.0
    ensures -0.005 < r - x <= 0.005
    ensures (100.0 * r).Floor as real == 100.0 * r
  {
    var n := (100.0 * x + 0.5).Floor;
    assert n as real <= 100.0 * x + 0.5 < n as real + 1.0;
    assert 100.0 * (n as real / 100.0) == n as real;
    n as real / 100.0
  }

  /** The previous price moved by the random change `(draw - 0.5) *
      volatility`, before rounding. */
  function Moved(previous: real, draw: real, volatility: real): real
  {
    previous * (1.0 + (draw - 0.5) * volatility)
  }

  /** One step of the random walk: the moved price rounded to cents. */
  function NextPrice(previous: real, draw: real, volatility: real): real
  {
    ToFixed2(Moved(previous, draw, volatility))
  }

  /** A random walk of `dataPoints` prices (at least one) starting at
      `startPrice`; `draws` are the successive values of `Math.random()`. */
  method GenerateHistoricalPrices(startPrice: real, volatility: real, dataPoints: int, draws: seq<real>)
    returns (prices: seq<real>)
    requires |draws| >= dataPoints - 1
    ensures |prices| == if dataPoints >= 1 then dataPoints else 1
    ensures prices[0] == startPrice
    ensures forall k :: 1 <= k < |prices| ==> prices[k] == NextPrice(prices[k - 1], draws[k - 1], volatility)
  {
    prices := [startPrice];
    var i := 1;
    while i < dataPoints
      invariant 1 <= i && |prices| == i
      invariant i <= dataPoints || i == 1
      invariant prices[0] == startPrice
      invariant forall j :: 1 <= j < i ==> prices[j] == NextPrice(prices[j - 1], draws[j - 1], volatility)
    {
      prices := prices + [NextPrice(prices[i - 1], draws[i - 1], volatility)];
      i := i + 1;
    }
  }

  /** With a draw in [0, 1] and a non-negative price, one step moves the
      price by at most `volatility / 2` of itself, plus half a cent of
      rounding. */
  lemma RandomWalkStepBounds(previous: real, draw: real, volatility: real)
    requires previous >= 0.0 && 0.0 <= draw <= 1.0 && volatility >= 0.0
    ensures previous * (1.0 - volatility / 2.0) - 0.005 <= NextPrice(previous, draw, volatility)
    ensures NextPrice(previous, draw, volatility) <= previous * (1.0 + volatility / 2.0) + 0.005
  {
    MovedBounds(previous, draw, volatility);
    var moved := Moved(previous, draw, volatility);
    var r := ToFixed2(moved);
    assert -0.005 <= r - moved <= 0.005;
  }

  lemma MovedBounds(previous: real, draw: real, volatility: real)
    requires previous >= 0.0 && 0.0 <= draw <= 1.0 && volatility >= 0.0
    ensures previous * (1.0 - volatility / 2.0) <= Moved(previous, draw, volatility)
    ensures Moved(previous, draw, volatility) <= previous * (1.0 + volatility / 2.0)
  {
    var randomChange := (draw - 0.5) * volatility;
    ScaleBetween(volatility, -0.5, draw - 0.5, 0.5);
    assert randomChange == volatility * (draw - 0.5);
    assert 1.0 - volatility / 2.0 <= 1.0 + randomChange <= 1.0 + volatility / 2.0;
    ScaleBetween(previous, 1.0 - volatility / 2.0, 1.0 + randomChange, 1.0 + volatility / 2.0);
    assert (1.0 - volatility / 2.0) * previous == previous * (1.0 - volatility / 2.0);
    assert (1.0 + volatility / 2.0) * previous == previous * (1.0 + volatility / 2.0);
  }

  // ---------------------------------------------------------------------------
  // The sample holdings

  /** The static holdings table. `histories` are the eight random series the
      table draws when it is built, in table order, skipping the cash reserve. */
  function SampleAssets(histories: seq<seq<real>>): (assets: seq<Asset>)
    requires |histories| == 8
    ensures |assets| == 9
  {
    [ Asset("1", "Apple Inc.", "AAPL", Equity, 15.0, 56250.0, 150.25, 187.50, 1.2,
            histories[0], Some("Technology"), None, None, None),
      Asset("2", "Microsoft Corporation", "MSFT", Equity, 12.0, 45000.0, 310.75, 337.50, 0.5,
            histories[1], Some("Technology"), None, None, None),
      Asset("3", "Amazon.com Inc.", "AMZN", Equity, 10.0, 37500.0, 140.50, 153.75, -0.7,
            histories[2], Some("Consumer Discretionary"), None, None, None),
      Asset("4", "US Treasury Bond", "USTB", FixedIncome, 20.0, 75000.0, 995.50, 997.25, 0.1,
            histories[3], None, Some("10Y"), Some(4.25), Some("AAA")),
      Asset("5", "Corporate Bond ETF", "CORP", FixedIncome, 15.0, 56250.0, 52.25, 51.75, -0.3,
            histories[4], None, Some("Various"), Some(5.75), Some("BBB")),
      Asset("6", "Municipal Bond Fund", "MUNI", FixedIncome, 8.0, 30000.0, 108.75, 109.50, 0.2,
            histories[5], None, Some("Various"), Some(3.85), Some("AA")),
      Asset("7", "S&P 500 ETF", "SPY", Equity, 10.0, 37500.0, 420.50, 445.25, 0.8,
            histories[6], Some("Various"), None, None, None),
      Asset("8", "Cash Reserve", "CASH", Cash, 5.0, 18750.0, 1.0, 1.0, 0.0,
            seq(30, _ => 1.0), None, None, Some(1.5), None),
      Asset("9", "Real Estate Investment Trust", "REIT", Alternative, 5.0, 18750.0, 85.25, 87.50, 0.6,
            histories[7], None, None, Some(4.2), None) ]
  }

  /** The purchase prices the eight random histories start from, in the order
      of `histories`. */
  function SampleStartPrices(): seq<real>
  {
    [150.25, 310.75, 140.50, 995.50, 52.25, 108.75, 420.50, 85.25]
  }

  /** The shape `GenerateHistoricalPrices(purchasePrice, _, 30, _)` gives each
      random history. */
  predicate SampleHistoryShapes(histories: seq<seq<real>>)
  {
    |histories| == 8 &&
    forall i :: 0 <= i < 8 ==> |histories[i]| == 30 && histories[i][0] == SampleStartPrices()[i]
  }

  /** The volatilities of the eight random histories, in the order of
      `histories`. */
  function SampleVolatilities(): seq<real>
  {
    [0.02, 0.015, 0.025, 0.005, 0.01, 0.007, 0.018, 0.02]
  }

  /** The eight `generateHistoricalPrices(purchasePrice, volatility, 30)`
      calls the table makes, in table order; `draws[i]` are the
      `Math.random()` values call `i` consumes. Each history is a 30-point
      random walk from the holding's purchase price with its own volatility. */
  method SampleHistories(draws: seq<seq<real>>) returns (histories: seq<seq<real>>)
    requires |draws| == 8 && forall i :: 0 <= i < 8 ==> |draws[i]| >= 29
    ensures SampleHistoryShapes(histories)
    ensures forall i, k :: 0 <= i < 8 && 1 <= k < 30 ==>
      histories[i][k] == NextPrice(histories[i][k - 1], draws[i][k - 1], SampleVolatilities()[i])
  {
    histories := [];
    for i := 0 to 8
      invariant |histories| == i
      invariant forall j :: 0 <= j < i ==> |histories[j]| == 30 && histories[j][0] == SampleStartPrices()[j]
      invariant forall j, k :: 0 <= j < i && 1 <= k < 30 ==>
        histories[j][k] == NextPrice(histories[j][k - 1], draws[j][k - 1], SampleVolatilities()[j])
    {
      var prices := GenerateHistoricalPrices(SampleStartPrices()[i], SampleVolatilities()[i], 30, draws[i]);
      histories := histories + [prices];
    }
  }

  /** The `assets` table as the module builds it: the eight random histories
      drawn, then the table around them. */
  method BuildSampleAssets(draws: seq<seq<real>>) returns (assets: seq<Asset>)
    requires |draws| == 8 && forall i :: 0 <= i < 8 ==> |draws[i]| >= 29
    ensures |assets| == 9
    ensures assets[7].assetType == Cash && assets[7].historicalPrices == seq(30, _ => 1.0)
    ensures forall a :: a in assets ==> |a.historicalPrices| == 30 && a.historicalPrices[0] == a.purchasePrice
    ensures forall i, k :: 0 <= i < 7 && 1 <= k < 30 ==>
      assets[i].historicalPrices[k] == NextPrice(assets[i].historicalPrices[k - 1], draws[i][k - 1], SampleVolatilities()[i])
    ensures forall k :: 1 <= k < 30 ==>
      assets[8].historicalPrices[k] == NextPrice(assets[8].historicalPrices[k - 1], draws[7][k - 1], SampleVolatilities()[7])
    ensures TotalValue(assets) == 375000.0
  {
    var histories := SampleHistories(draws);
    assets := SampleAssets(histories);
    SampleTable(histories);
  }

  /** Facts about the table: the cash reserve never moves and has a flat
      30-point history, every history has 30 points and starts at the
      holding's purchase price, the allocations add up to 100 and the values
      to 375000. */
  lemma SampleTable(histories: seq<seq<real>>)
    requires SampleHistoryShapes(histories)
    ensures var assets := SampleAssets(histories);
      && assets[7].assetType == Cash
      && assets[7].purchasePrice == assets[7].currentPrice == 1.0
      && assets[7].dailyChange == 0.0
      && assets[7].historicalPrices == seq(30, _ => 1.0)
      && (forall a :: a in assets ==> |a.historicalPrices| == 30 && a.historicalPrices[0] == a.purchasePrice)
      && TotalValue(assets) == 375000.0
  {
    var assets := SampleAssets(histories);
    forall a | a in assets
      ensures |a.historicalPrices| == 30 && a.historicalPrices[0] == a.purchasePrice
    {
      var k :| 0 <= k < 9 && assets[k] == a;
    }
    SampleTotals(assets);
  }

  lemma SampleTotals(assets: seq<Asset>)
    requires |assets| == 9
    requires forall i :: 0 <= i < 9 ==> assets[i].value == SampleValues()[i]
    ensures TotalValue(assets) == 375000.0
  {
    var partial := [0.0, 56250.0, 101250.0, 138750.0, 213750.0, 270000.0, 300000.0, 337500.0, 356250.0, 375000.0];
    for k := 0 to 9
      invariant TotalValue(assets[..k]) == partial[k]
    {
      TotalValuePrefix(assets, k);
    }
    assert assets[..9] == assets;
  }

  lemma TotalValuePrefix(assets: seq<Asset>, k: nat)
    requires k < |assets|
    ensures TotalValue(assets[..k + 1]) == TotalValue(assets[..k]) + assets[k].value
  {
    assert assets[..k + 1][..k] == assets[..k];
  }

  function SampleValues(): seq<real>
  {
    [56250.0, 45000.0, 37500.0, 75000.0, 56250.0, 30000.0, 37500.0, 18750.0, 18750.0]
  }

  // ---------------------------------------------------------------------------
  // Filters over the holdings

  /** The holdings of one asset class, in order (`assets.filter(a => a.type === t)`). */
  function OfType(assets: seq<Asset>, t: AssetType): (r: seq<Asset>)
    ensures forall a :: a in r <==> a in assets && a.assetType == t
    ensures |r| <= |assets|
  {
    SelectMembers(assets, t);
    Select(assets, t)
  }

  /** The recursion behind `OfType`, kept apart from its contract. */
  function Select(assets: seq<Asset>, t: AssetType): seq<Asset>
  {
    if assets == [] then []
    else Select(assets[..|assets| - 1], t) + (if assets[|assets| - 1].assetType == t then [assets[|assets| - 1]] else [])
  }

  lemma {:induction false} SelectMembers(assets: seq<Asset>, t: AssetType)
    ensures forall a :: a in Select(assets, t) <==> a in assets && a.assetType == t
    ensures |Select(assets, t)| <= |assets|
  {
    if assets != [] {
      var init, last := assets[..|assets| - 1], assets[|assets| - 1];
      SelectMembers(init, t);
      assert assets == init + [last];
    }
  }

  /** Filtering by class keeps the order: it distributes over concatenation. */
  lemma OfTypeAppend(xs: seq<Asset>, ys: seq<Asset>, t: AssetType)
    ensures OfType(xs + ys, t) == OfType(xs, t) + OfType(ys, t)
  {
    SelectAppend(xs, ys, t);
  }

  lemma {:induction false} SelectAppend(xs: seq<Asset>, ys: seq<Asset>, t: AssetType)
    ensures Select(xs + ys, t) == Select(xs, t) + Select(ys, t)
  {
    if ys == [] {
      assert xs + ys == xs;
    } else {
      var init, last := ys[..|ys| - 1], ys[|ys| - 1];
      SelectAppend(xs, init, t);
      var both := xs + ys;
      assert both[..|both| - 1] == xs + init && both[|both| - 1] == last;
      var tail := if last.assetType == t then [last] else [];
      assert Select(both, t) == Select(xs + init, t) + tail;
      assert Select(ys, t) == Select(init, t) + tail;
      assert Select(xs, t) + Select(ys, t) == (Select(xs, t) + Select(init, t)) + tail;
    }
  }

  /** `if (asset.sector)`: an undefined or empty sector is falsy. */
  predicate HasSector(a: Asset)
  {
    a.sector.Some? && a.sector.value != ""
  }

  /** The holdings whose sector is set. */
  function WithSector(assets: seq<Asset>): (r: seq<Asset>)
    ensures forall a :: a in r <==> a in assets && HasSector(a)
  {
    if assets == [] then []
    else
      var init, last := assets[..|assets| - 1], assets[|assets| - 1];
      assert assets == init + [last];
      WithSector(init) + (if HasSector(last) then [last] else [])
  }

  /** The holdings of sector `s`. */
  function InSector(assets: seq<Asset>, s: string): (r: seq<Asset>)
    ensures forall a :: a in r <==> a in assets && HasSector(a) && a.sector.value == s
  {
    if assets == [] then []
    else
      var init, last := assets[..|assets| - 1], assets[|assets| - 1];
      assert assets == init + [last];
      InSector(init, s) + (if HasSector(last) && last.sector.value == s then [last] else [])
  }

  // ---------------------------------------------------------------------------
  // Breakdown labels

  /** `toUpperCase` of one character, for ASCII letters. */
  function UpperCase(c: char): char
  {
    if 'a' <= c <= 'z' then (c as int - 32) as char else c
  }

  /** `s.indexOf(c)`: the first position of `c` in `s`, or -1. */
  function IndexOf(s: string, c: char): (i: int)
    ensures -1 <= i < |s|
  {
    IndexFrom(s, c, 0)
  }

  /** `s.indexOf(c, k)`: the first position of `c` at or after `k`, or -1. */
  function IndexFrom(s: string, c: char, k: nat): (i: int)
    requires k <= |s|
    ensures -1 <= i < |s|
    decreases |s| - k
  {
    if k == |s| then -1
    else if s[k] == c then k
    else IndexFrom(s, c, k + 1)
  }

  /** `indexOf` finds the first occurrence, and -1 exactly when there is none. */
  lemma IndexOfFindsFirst(s: string, c: char)
    ensures IndexOf(s, c) == -1 <==> c !in s
    ensures 0 <= IndexOf(s, c) ==> s[IndexOf(s, c)] == c && c !in s[..IndexOf(s, c)]
  {
    IndexFromFindsFirst(s, c, 0);
    assert s[0..] == s;
  }

  lemma {:induction false} IndexFromFindsFirst(s: string, c: char, k: nat)
    requires k <= |s|
    ensures IndexFrom(s, c, k) == -1 <==> c !in s[k..]
    ensures 0 <= IndexFrom(s, c, k) ==> k <= IndexFrom(s, c, k) && s[IndexFrom(s, c, k)] == c && c !in s[k..IndexFrom(s, c, k)]
    decreases |s| - k
  {
    if k < |s| && s[k] != c {
      IndexFromFindsFirst(s, c, k + 1);
      assert s[k..] == [s[k]] + s[k + 1..];
      var j := IndexFrom(s, c, k + 1);
      if 0 <= j {
        assert s[k..j] == [s[k]] + s[k + 1..j];
      }
    }
  }

  /** `s.replace(from, to)` with a one-character string pattern: the first
      occurrence, found as by `indexOf`, is replaced. */
  function ReplaceFirst(s: string, from: char, to: char): string
  {
    var i := IndexOf(s, from);
    if i < 0 then s else s[..i] + [to] + s[i + 1..]
  }

  /** Only the first occurrence changes: a string without `from` is kept, and
      otherwise exactly one position, the first `from`, becomes `to`. */
  lemma ReplaceFirstChangesOnlyFirst(s: string, from: char, to: char)
    ensures var r := ReplaceFirst(s, from, to);
      && |r| == |s|
      && (from !in s ==> r == s)
      && (from in s ==>
            exists i :: 0 <= i < |s| && s[i] == from && from !in s[..i] && r[i] == to &&
              forall j :: 0 <= j < |s| && j != i ==> r[j] == s[j])
  {
    IndexOfFindsFirst(s, from);
    var i := IndexOf(s, from);
    var r := ReplaceFirst(s, from, to);
    if 0 <= i {
      assert r == s[..i] + [to] + s[i + 1..];
      assert r[i] == to;
      assert forall j :: 0 <= j < |s| && j != i ==> r[j] == s[j];
    } else {
      assert r == s;
    }
  }

  /** `type.charAt(0).toUpperCase() + type.slice(1).replace('-', ' ')`. */
  function TypeLabel(key: string): (shown: string)
    ensures |shown| == |key|
    ensures key != [] ==> shown[0] == UpperCase(key[0])
  {
    if key == [] then [] else [UpperCase(key[0])] + ReplaceFirst(key[1..], '-', ' ')
  }

  /** The label an asset class is shown under. */
  function TypeDisplay(t: AssetType): string
  {
    TypeLabel(TypeName(t))
  }

  /** `fixed-income` is shown as `Fixed income`, the other classes capitalised. */
  lemma TypeDisplayNames()
    ensures TypeDisplay(Equity) == "Equity"
    ensures TypeDisplay(FixedIncome) == "Fixed income"
    ensures TypeDisplay(Cash) == "Cash"
    ensures TypeDisplay(Alternative) == "Alternative"
  {
    EquityLabel();
    FixedIncomeLabel();
    CashLabel();
    AlternativeLabel();
  }

  lemma EquityLabel()
    ensures TypeDisplay(Equity) == "Equity"
  {
    DashlessLabel(Equity, 'e', "quity", 'E');
  }

  lemma CashLabel()
    ensures TypeDisplay(Cash) == "Cash"
  {
    DashlessLabel(Cash, 'c', "ash", 'C');
  }

  lemma AlternativeLabel()
    ensures TypeDisplay(Alternative) == "Alternative"
  {
    var rest := "lternative";
    AlternativeSplit(rest);
    DashlessLabel(Alternative, 'a', rest, 'A');
  }

  lemma AlternativeSplit(rest: string)
    requires rest == "lternative"
    ensures TypeName(Alternative) == ['a'] + rest
    ensures '-' !in rest
    ensures ['A'] + rest == "Alternative"
  {
    assert forall i :: 0 <= i < |rest| ==> rest[i] != '-';
  }

  lemma DashlessLabel(t: AssetType, first: char, rest: string, upper: char)
    requires TypeName(t) == [first] + rest && '-' !in rest && UpperCase(first) == upper
    ensures TypeDisplay(t) == [upper] + rest
  {
    assert TypeName(t)[1..] == rest;
    IndexOfFindsFirst(rest, '-');
  }

  lemma FixedIncomeLabel()
    ensures TypeDisplay(FixedIncome) == "Fixed income"
  {
    var rest := "ixed-income";
    FixedIncomeSplit(rest);
    assert TypeName(FixedIncome)[1..] == rest;
  }

  lemma FixedIncomeSplit(rest: string)
    requires rest == "ixed-income"
    ensures TypeName(FixedIncome) == ['f'] + rest
    ensures ReplaceFirst(rest, '-', ' ') == "ixed income"
    ensures [UpperCase('f')] + "ixed income" == "Fixed income"
  {
    FixedIncomeDash(rest);
  }

  lemma FixedIncomeDash(rest: string)
    requires rest == "ixed-income"
    ensures IndexOf(rest, '-') == 4 && rest[..4] == "ixed" && rest[5..] == "income"
  {
    assert rest[4] == '-';
    assert IndexFrom(rest, '-', 3) == 4;
    assert IndexFrom(rest, '-', 1) == 4;
  }

  /** Only the first dash is replaced. */
  lemma TypeLabelReplacesFirstDashOnly()
    ensures TypeLabel("a-b-c") == "A b-c"
  {
    assert IndexOf("-b-c", '-') == 0;
  }

  // ---------------------------------------------------------------------------
  // Allocation breakdowns

  /** The (key, amount) entries the by-class forEach adds: each holding's
      class name and value. */
  function TypeEntries(assets: seq<Asset>): (es: seq<(Key, real)>)
    ensures |es| == |assets|
    ensures forall i :: 0 <= i < |assets| ==> es[i] == (TypeName(assets[i].assetType), assets[i].value)
  {
    seq(|assets|, i requires 0 <= i < |assets| => (TypeName(assets[i].assetType), assets[i].value))
  }

  /** The entries the by-sector forEach adds: the sector and value of each
      holding whose sector is set; the others are skipped. */
  function SectorEntries(assets: seq<Asset>): (es: seq<(Key, real)>)
    ensures |es| <= |assets|
  {
    if assets == [] then []
    else
      var last := assets[|assets| - 1];
      SectorEntries(assets[..|assets| - 1]) + (if HasSector(last) then [(last.sector.value, last.value)] else [])
  }

  /** The breakdown records for the dictionary keys `keys` in order, each with
      its label, bucket value and share of `whole` in percent. */
  function Slices(keys: seq<Key>, es: seq<(Key, real)>, whole: real, nameOf: Key -> string): seq<Allocation>
    requires keys != [] ==> whole != 0.0
  {
    seq(|keys|, i requires 0 <= i < |keys| =>
      Allocation(nameOf(keys[i]), KeyTotal(es, keys[i]), Percentage(KeyTotal(es, keys[i]), whole)))
  }

  function SumValues(r: seq<Allocation>): real
  {
    if r == [] then 0.0 else SumValues(r[..|r| - 1]) + r[|r| - 1].value
  }

  function SumPercentages(r: seq<Allocation>): real
  {
    if r == [] then 0.0 else SumPercentages(r[..|r| - 1]) + r[|r| - 1].percentage
  }

  /** A sector record is named by the sector itself. */
  function SectorName(sector: Key): string
  {
    sector
  }

  /** The by-class breakdown: one record per asset class present, in order of
      first appearance. */
  function AssetAllocationOf(assets: seq<Asset>): seq<Allocation>
    requires assets != [] ==> TotalValue(assets) != 0.0
  {
    var es := TypeEntries(assets);
    Slices(FirstOccurrences(Keys(es)), es, TotalValue(assets), TypeLabel)
  }

  /** The by-sector breakdown of the equities, in order of first appearance,
      as shares of the total equity value. */
  function SectorAllocationOf(assets: seq<Asset>): seq<Allocation>
    requires SectorEntries(OfType(assets, Equity)) != [] ==> TotalValue(OfType(assets, Equity)) != 0.0
  {
    var equities := OfType(assets, Equity);
    var es := SectorEntries(equities);
    Slices(FirstOccurrences(Keys(es)), es, TotalValue(equities), SectorName)
  }

  /** `calculateAssetAllocation` over `assets`: fill the by-class dictionary,
      then map its keys to records. */
  method CalculateAssetAllocation(assets: seq<Asset>) returns (r: seq<Allocation>)
    requires assets != [] ==> TotalValue(assets) != 0.0
    ensures r == AssetAllocationOf(assets)
  {
    var totalValue := TotalValue(assets);
    var keys, totals := Accumulate(TypeEntries(assets));
    r := seq(|keys|, i requires 0 <= i < |keys| =>
      Allocation(TypeLabel(keys[i]), totals[keys[i]], Percentage(totals[keys[i]], totalValue)));
  }

  /** `calculateSectorAllocation` over `assets`: keep the equities, fill the
      by-sector dictionary from those with a sector, then map its keys to
      records. */
  method CalculateSectorAllocation(assets: seq<Asset>) returns (r: seq<Allocation>)
    requires SectorEntries(OfType(assets, Equity)) != [] ==> TotalValue(OfType(assets, Equity)) != 0.0
    ensures r == SectorAllocationOf(assets)
  {
    var equities := OfType(assets, Equity);
    var totalEquityValue := TotalValue(equities);
    var keys, totals := Accumulate(SectorEntries(equities));
    r := seq(|keys|, i requires 0 <= i < |keys| =>
      Allocation(SectorName(keys[i]), totals[keys[i]], Percentage(totals[keys[i]], totalEquityValue)));
  }

  // ---------------------------------------------------------------------------
  // What the breakdowns add up to

  lemma PercentageAdds(a: real, b: real, whole: real)
    requires whole != 0.0
    ensures Percentage(a, whole) + Percentage(b, whole) == Percentage(a + b, whole)
  {
  }

  lemma PercentageOfWhole(whole: real)
    requires whole != 0.0
    ensures Percentage(whole, whole) == 100.0
  {
  }

  lemma SlicesAt(keys: seq<Key>, es: seq<(Key, real)>, whole: real, nameOf: Key -> string, i: int)
    requires 0 <= i < |keys| && whole != 0.0
    ensures var r := Slices(keys, es, whole, nameOf);
      |r| == |keys| && r[i] == Allocation(nameOf(keys[i]), KeyTotal(es, keys[i]), Percentage(KeyTotal(es, keys[i]), whole))
  {
  }

  lemma SlicesPrefix(keys: seq<Key>, es: seq<(Key, real)>, whole: real, nameOf: Key -> string)
    requires keys != [] && whole != 0.0
    ensures Slices(keys, es, whole, nameOf)[..|keys| - 1] == Slices(keys[..|keys| - 1], es, whole, nameOf)
  {
  }

  lemma {:induction false} SlicesValues(keys: seq<Key>, es: seq<(Key, real)>, whole: real, nameOf: Key -> string)
    requires keys != [] ==> whole != 0.0
    ensures SumValues(Slices(keys, es, whole, nameOf)) == TotalsOver(keys, es)
  {
    if keys != [] {
      SlicesPrefix(keys, es, whole, nameOf);
      SlicesValues(keys[..|keys| - 1], es, whole, nameOf);
    }
  }

  lemma {:induction false} SlicesPercentages(keys: seq<Key>, es: seq<(Key, real)>, whole: real, nameOf: Key -> string)
    requires whole != 0.0
    ensures SumPercentages(Slices(keys, es, whole, nameOf)) == Percentage(TotalsOver(keys, es), whole)
  {
    if keys != [] {
      var init := keys[..|keys| - 1];
      SlicesPrefix(keys, es, whole, nameOf);
      SlicesPercentages(init, es, whole, nameOf);
      PercentageAdds(TotalsOver(init, es), KeyTotal(es, keys[|keys| - 1]), whole);
    }
  }

  lemma {:induction false} TypeEntriesTotal(assets: seq<Asset>)
    ensures Total(TypeEntries(assets)) == TotalValue(assets)
  {
    if assets != [] {
      var init := assets[..|assets| - 1];
      assert TypeEntries(assets)[..|assets| - 1] == TypeEntries(init);
      TypeEntriesTotal(init);
    }
  }

  lemma {:induction false} TypeBucket(assets: seq<Asset>, t: AssetType)
    ensures KeyTotal(TypeEntries(assets), TypeName(t)) == TotalValue(OfType(assets, t))
  {
    if assets != [] {
      var init, last := assets[..|assets| - 1], assets[|assets| - 1];
      var es, k := TypeEntries(assets), TypeName(t);
      assert es[..|assets| - 1] == TypeEntries(init);
      TypeBucket(init, t);
      var amount := if last.assetType == t then last.value else 0.0;
      TypeNameInjective(last.assetType, t);
      assert KeyTotal(es, k) == KeyTotal(TypeEntries(init), k) + amount;
      var tail := if last.assetType == t then [last] else [];
      assert OfType(assets, t) == OfType(init, t) + tail;
      TotalValueAppend(OfType(init, t), tail);
      assert TotalValue(tail) == amount;
    }
  }

  lemma TypeNameInjective(t: AssetType, u: AssetType)
    ensures TypeName(t) == TypeName(u) ==> t == u
  {
    assert TypeName(t)[0] == TypeName(u)[0] ==> t == u;
  }

  /** Every dictionary key of the by-class fold names an asset class present. */
  lemma TypeKeys(assets: seq<Asset>, k: Key)
    ensures k in Keys(TypeEntries(assets)) <==> exists a :: a in assets && TypeName(a.assetType) == k
  {
    var ks := Keys(TypeEntries(assets));
    if k in ks {
      var i :| 0 <= i < |ks| && ks[i] == k;
      assert assets[i] in assets;
    }
    if exists a :: a in assets && TypeName(a.assetType) == k {
      var a :| a in assets && TypeName(a.assetType) == k;
      var i :| 0 <= i < |assets| && assets[i] == a;
      assert ks[i] == k;
    }
  }

  /** One more holding adds its entry to the by-sector entries and to each
      sector filter exactly when its sector is set. */
  lemma SectorStep(assets: seq<Asset>, s: Key)
    requires assets != []
    ensures var init, last := assets[..|assets| - 1], assets[|assets| - 1];
      && SectorEntries(assets) == SectorEntries(init) + (if HasSector(last) then [(last.sector.value, last.value)] else [])
      && WithSector(assets) == WithSector(init) + (if HasSector(last) then [last] else [])
      && InSector(assets, s) == InSector(init, s) + (if HasSector(last) && last.sector.value == s then [last] else [])
  {
  }

  lemma {:induction false} SectorEntriesTotal(assets: seq<Asset>)
    ensures Total(SectorEntries(assets)) == TotalValue(WithSector(assets))
  {
    if assets != [] {
      var init, last := assets[..|assets| - 1], assets[|assets| - 1];
      SectorEntriesTotal(init);
      SectorStep(assets, "");
      var es := SectorEntries(assets);
      var amount := if HasSector(last) then last.value else 0.0;
      if HasSector(last) {
        assert es[..|es| - 1] == SectorEntries(init);
      } else {
        assert es == SectorEntries(init);
      }
      assert Total(es) == Total(SectorEntries(init)) + amount;
      var tail := if HasSector(last) then [last] else [];
      TotalValueAppend(WithSector(init), tail);
      assert TotalValue(tail) == amount;
    }
  }

  lemma {:induction false} SectorBucket(assets: seq<Asset>, s: Key)
    ensures KeyTotal(SectorEntries(assets), s) == TotalValue(InSector(assets, s))
  {
    if assets != [] {
      var init, last := assets[..|assets| - 1], assets[|assets| - 1];
      SectorBucket(init, s);
      SectorStep(assets, s);
      var es := SectorEntries(assets);
      var amount := if HasSector(last) && last.sector.value == s then last.value else 0.0;
      if HasSector(last) {
        assert es[..|es| - 1] == SectorEntries(init);
      } else {
        assert es == SectorEntries(init);
      }
      assert KeyTotal(es, s) == KeyTotal(SectorEntries(init), s) + amount;
      var tail := if HasSector(last) && last.sector.value == s then [last] else [];
      TotalValueAppend(InSector(init, s), tail);
      assert TotalValue(tail) == amount;
    }
  }

  /** The by-sector dictionary keys are exactly the sectors that are set. */
  lemma {:induction false} SectorKeys(assets: seq<Asset>, s: Key)
    ensures s in Keys(SectorEntries(assets)) <==> exists a :: a in assets && HasSector(a) && a.sector.value == s
  {
    if assets != [] {
      var init, last := assets[..|assets| - 1], assets[|assets| - 1];
      SectorKeys(init, s);
      SectorStep(assets, s);
      assert assets == init + [last];
      var es, es0 := SectorEntries(assets), SectorEntries(init);
      var lastMatches := HasSector(last) && last.sector.value == s;
      if HasSector(last) {
        assert Keys(es) == Keys(es0) + [last.sector.value];
      } else {
        assert es == es0;
      }
      assert s in Keys(es) <==> s in Keys(es0) || lastMatches;
      if lastMatches {
        assert last in assets;
      }
    }
  }

  lemma {:induction false} WithSectorAll(assets: seq<Asset>)
    requires forall a :: a in assets ==> HasSector(a)
    ensures WithSector(assets) == assets
  {
    if assets != [] {
      var init, last := assets[..|assets| - 1], assets[|assets| - 1];
      assert assets == init + [last];
      assert HasSector(last);
      WithSectorAll(init);
    }
  }

  /** The by-class values add up to the portfolio's total value. */
  lemma AssetAllocationValues(assets: seq<Asset>)
    requires assets != [] ==> TotalValue(assets) != 0.0
    ensures SumValues(AssetAllocationOf(assets)) == TotalValue(assets)
  {
    var es := TypeEntries(assets);
    SlicesValues(FirstOccurrences(Keys(es)), es, TotalValue(assets), TypeLabel);
    BucketsPartitionTotal(es);
    TypeEntriesTotal(assets);
  }

  /** The by-class percentages add up to 100. */
  lemma AssetAllocationPercentages(assets: seq<Asset>)
    requires TotalValue(assets) != 0.0
    ensures SumPercentages(AssetAllocationOf(assets)) == 100.0
  {
    var es := TypeEntries(assets);
    SlicesPercentages(FirstOccurrences(Keys(es)), es, TotalValue(assets), TypeLabel);
    BucketsPartitionTotal(es);
    TypeEntriesTotal(assets);
    PercentageOfWhole(TotalValue(assets));
  }

  /** There is a record for an asset class exactly when some holding is of
      that class; it holds the class's total value and that value's share of
      the portfolio. */
  lemma AssetAllocationByType(assets: seq<Asset>, t: AssetType)
    requires assets != [] ==> TotalValue(assets) != 0.0
    ensures var r := AssetAllocationOf(assets);
      (exists a :: a in assets && a.assetType == t) <==> (exists i :: 0 <= i < |r| && r[i].name == TypeDisplay(t))
    ensures var r := AssetAllocationOf(assets);
      forall i :: 0 <= i < |r| && r[i].name == TypeDisplay(t) ==>
        r[i].value == TotalValue(OfType(assets, t)) && r[i].percentage == Percentage(r[i].value, TotalValue(assets))
  {
    var es := TypeEntries(assets);
    var keys := FirstOccurrences(Keys(es));
    var r := AssetAllocationOf(assets);
    forall i | 0 <= i < |r| && r[i].name == TypeDisplay(t)
      ensures r[i].value == TotalValue(OfType(assets, t))
      ensures r[i].percentage == Percentage(r[i].value, TotalValue(assets))
      ensures exists a :: a in assets && a.assetType == t
    {
      TypeRecordAt(assets, t, i);
    }
    if exists a :: a in assets && a.assetType == t {
      TypeRecordExists(assets, t);
    }
  }

  lemma TypeRecordExists(assets: seq<Asset>, t: AssetType)
    requires assets != [] ==> TotalValue(assets) != 0.0
    requires exists a :: a in assets && a.assetType == t
    ensures var r := AssetAllocationOf(assets);
      exists i :: 0 <= i < |r| && r[i].name == TypeDisplay(t)
  {
    var es := TypeEntries(assets);
    var keys := FirstOccurrences(Keys(es));
    var r := AssetAllocationOf(assets);
    TypeKeys(assets, TypeName(t));
    var i :| 0 <= i < |keys| && keys[i] == TypeName(t);
    assert TotalValue(assets) != 0.0;
    assert r == Slices(keys, es, TotalValue(assets), TypeLabel);
    SlicesAt(keys, es, TotalValue(assets), TypeLabel, i);
    assert r[i].name == TypeDisplay(t);
  }

  lemma TypeRecordAt(assets: seq<Asset>, t: AssetType, i: int)
    requires assets != [] ==> TotalValue(assets) != 0.0
    requires 0 <= i < |AssetAllocationOf(assets)| && AssetAllocationOf(assets)[i].name == TypeDisplay(t)
    ensures var r := AssetAllocationOf(assets);
      r[i].value == TotalValue(OfType(assets, t)) && r[i].percentage == Percentage(r[i].value, TotalValue(assets))
    ensures exists a :: a in assets && a.assetType == t
  {
    var es := TypeEntries(assets);
    var keys := FirstOccurrences(Keys(es));
    var whole := TotalValue(assets);
    assert whole != 0.0;
    SlicesAt(keys, es, whole, TypeLabel, i);
    TypeKeys(assets, keys[i]);
    var a :| a in assets && TypeName(a.assetType) == keys[i];
    TypeDisplayInjective(a.assetType, t);
    TypeBucket(assets, t);
  }

  lemma TypeDisplayInjective(t: AssetType, u: AssetType)
    ensures TypeDisplay(t) == TypeDisplay(u) ==> t == u
  {
    assert TypeDisplay(t)[0] == UpperCase(TypeName(t)[0]);
    assert TypeDisplay(u)[0] == UpperCase(TypeName(u)[0]);
  }

  /** No asset class is listed twice. */
  lemma AssetAllocationDistinct(assets: seq<Asset>)
    requires assets != [] ==> TotalValue(assets) != 0.0
    ensures var r := AssetAllocationOf(assets);
      forall i, j :: 0 <= i < j < |r| ==> r[i].name != r[j].name
  {
    var es := TypeEntries(assets);
    var keys := FirstOccurrences(Keys(es));
    var r := AssetAllocationOf(assets);
    forall i, j | 0 <= i < j < |r|
      ensures r[i].name != r[j].name
    {
      TypeKeys(assets, keys[i]);
      TypeKeys(assets, keys[j]);
      var a :| a in assets && TypeName(a.assetType) == keys[i];
      var b :| b in assets && TypeName(b.assetType) == keys[j];
      TypeDisplayInjective(a.assetType, b.assetType);
    }
  }

  /** The by-sector values add up to the value of the equities whose sector
      is set; equities without one are left out of every bucket. */
  lemma SectorAllocationValues(assets: seq<Asset>)
    requires SectorEntries(OfType(assets, Equity)) != [] ==> TotalValue(OfType(assets, Equity)) != 0.0
    ensures SumValues(SectorAllocationOf(assets)) == TotalValue(WithSector(OfType(assets, Equity)))
  {
    var equities := OfType(assets, Equity);
    var es := SectorEntries(equities);
    SlicesValues(FirstOccurrences(Keys(es)), es, TotalValue(equities), SectorName);
    BucketsPartitionTotal(es);
    SectorEntriesTotal(equities);
  }

  /** The by-sector percentages are shares of the whole equity value: they add
      up to the sectored equities' share, which is 100 when every equity has a
      sector. */
  lemma SectorAllocationPercentages(assets: seq<Asset>)
    requires TotalValue(OfType(assets, Equity)) != 0.0
    ensures var equities := OfType(assets, Equity);
      SumPercentages(SectorAllocationOf(assets)) == Percentage(TotalValue(WithSector(equities)), TotalValue(equities))
    ensures (forall a :: a in assets && a.assetType == Equity ==> HasSector(a)) ==>
      SumPercentages(SectorAllocationOf(assets)) == 100.0
  {
    var equities := OfType(assets, Equity);
    var es := SectorEntries(equities);
    SlicesPercentages(FirstOccurrences(Keys(es)), es, TotalValue(equities), SectorName);
    BucketsPartitionTotal(es);
    SectorEntriesTotal(equities);
    if forall a :: a in assets && a.assetType == Equity ==> HasSector(a) {
      WithSectorAll(equities);
      PercentageOfWhole(TotalValue(equities));
    }
  }

  /** There is a record for a sector exactly when some equity has that sector
      set; it holds the sector's total equity value and that value's share of
      all equities. */
  lemma SectorAllocationBySector(assets: seq<Asset>, s: string)
    requires SectorEntries(OfType(assets, Equity)) != [] ==> TotalValue(OfType(assets, Equity)) != 0.0
    ensures var r := SectorAllocationOf(assets);
      (exists i :: 0 <= i < |r| && r[i].name == s) <==>
      (exists a :: a in assets && a.assetType == Equity && HasSector(a) && a.sector.value == s)
    ensures var r := SectorAllocationOf(assets);
      forall i :: 0 <= i < |r| && r[i].name == s ==>
        r[i].value == TotalValue(InSector(OfType(assets, Equity), s)) &&
        r[i].percentage == Percentage(r[i].value, TotalValue(OfType(assets, Equity)))
  {
    var equities := OfType(assets, Equity);
    var es := SectorEntries(equities);
    var keys := FirstOccurrences(Keys(es));
    var whole := TotalValue(equities);
    var r := SectorAllocationOf(assets);
    assert r == Slices(keys, es, whole, SectorName);
    SectorKeys(equities, s);
    SectorBucket(equities, s);
    if r != [] {
      assert whole != 0.0;
    }
    forall i | 0 <= i < |r| && r[i].name == s
      ensures keys[i] == s
      ensures r[i].value == TotalValue(InSector(equities, s))
      ensures r[i].percentage == Percentage(r[i].value, whole)
    {
      SlicesAt(keys, es, whole, SectorName, i);
    }
    if s in keys {
      var i :| 0 <= i < |keys| && keys[i] == s;
      SlicesAt(keys, es, whole, SectorName, i);
    }
  }

  /** No sector is listed twice. */
  lemma SectorAllocationDistinct(assets: seq<Asset>)
    requires SectorEntries(OfType(assets, Equity)) != [] ==> TotalValue(OfType(assets, Equity)) != 0.0
    ensures var r := SectorAllocationOf(assets);
      forall i, j :: 0 <= i < j < |r| ==> r[i].name != r[j].name
  {
    var equities := OfType(assets, Equity);
    var es := SectorEntries(equities);
    var keys := FirstOccurrences(Keys(es));
    var r := SectorAllocationOf(assets);
    assert r == Slices(keys, es, TotalValue(equities), SectorName);
    forall i, j | 0 <= i < j < |r|
      ensures r[i].name != r[j].name
    {
      SlicesAt(keys, es, TotalValue(equities), SectorName, i);
      SlicesAt(keys, es, TotalValue(equities), SectorName, j);
    }
  }

  // ---------------------------------------------------------------------------
  // Portfolio metrics

  /** Every percentage figure is its change figure as a share of the total
      value. */
  predicate SharesOfTotal(m: PortfolioMetrics)
  {
    && m.dailyChangePercent * m.totalValue == 100.0 * m.dailyChange
    && m.weeklyChangePercent * m.totalValue == 100.0 * m.weeklyChange
    && m.monthlyChangePercent * m.totalValue == 100.0 * m.monthlyChange
    && m.yearlyChangePercent * m.totalValue == 100.0 * m.yearlyChange
    && m.allTimeChangePercent * m.totalValue == 100.0 * m.allTimeChange
  }

  /** Scaling a change and its percentage by the same factor keeps the one a
      share of the total. */
  lemma ScaledShare(p: real, t: real, d: real, k: real)
    requires p * t == 100.0 * d
    ensures (p * k) * t == 100.0 * (d * k)
  {
    assert (p * k) * t == (p * t) * k;
  }

  /** `calculatePortfolioMetrics` over `assets`: the daily figures from the
      holdings, the other horizons as fixed multiples of them (4.2, 15.5, 180)
      and fixed demonstration constants for the rest. */
  function CalculatePortfolioMetrics(assets: seq<Asset>): (m: PortfolioMetrics)
    requires TotalValue(assets) != 0.0
    ensures m.totalValue == TotalValue(assets) && m.dailyChange == DailyChangeAmount(assets)
    ensures SharesOfTotal(m)
    ensures m.weeklyChange == m.dailyChange * 4.2 && m.weeklyChangePercent == m.dailyChangePercent * 4.2
    ensures m.monthlyChange == m.dailyChange * 15.5 && m.monthlyChangePercent == m.dailyChangePercent * 15.5
    ensures m.yearlyChange == m.dailyChange * 180.0 && m.yearlyChangePercent == m.dailyChangePercent * 180.0
    ensures m.allTimeChangePercent == 35.0
    ensures m.volatility == 12.8 && m.sharpeRatio == 1.45 && m.averageYield == 3.2 && m.duration == Some(5.4)
  {
    var totalValue := TotalValue(assets);
    var dailyChange := DailyChangeAmount(assets);
    var dailyChangePercent := Percentage(dailyChange, totalValue);
    ScaledShare(dailyChangePercent, totalValue, dailyChange, 4.2);
    ScaledShare(dailyChangePercent, totalValue, dailyChange, 15.5);
    ScaledShare(dailyChangePercent, totalValue, dailyChange, 180.0);
    assert 35.0 * totalValue == 100.0 * (totalValue * 0.35);
    PortfolioMetrics(
      totalValue, dailyChange, dailyChangePercent,
      dailyChange * 4.2, dailyChangePercent * 4.2,
      dailyChange * 15.5, dailyChangePercent * 15.5,
      dailyChange * 180.0, dailyChangePercent * 180.0,
      totalValue * 0.35, 35.0,
      12.8, 1.45, 3.2, Some(5.4))
  }

  /** The sample table: 375000 in total, moving 1016.25 (0.271%) today. */
  lemma SampleMetrics(histories: seq<seq<real>>)
    requires |histories| == 8
    ensures TotalValue(SampleAssets(histories)) == 375000.0
    ensures var m := CalculatePortfolioMetrics(SampleAssets(histories));
      m.totalValue == 375000.0 && m.dailyChange == 1016.25 && m.dailyChangePercent == 0.271
  {
    var assets := SampleAssets(histories);
    SampleTotals(assets);
    var partial := [0.0, 675.0, 900.0, 637.5, 712.5, 543.75, 603.75, 903.75, 903.75, 1016.25];
    for k := 0 to 9
      invariant DailyChangeAmount(assets[..k]) == partial[k]
    {
      assert assets[..k + 1][..k] == assets[..k];
    }
    assert assets[..9] == assets;
    var m := CalculatePortfolioMetrics(assets);
    assert m.dailyChangePercent * 375000.0 == 101625.0;
  }

  /** `getPortfolioPerformanceData`: a 30-point random walk with volatility
      0.01 starting at 85% of the total value. */
  method GetPortfolioPerformanceData(assets: seq<Asset>, draws: seq<real>) returns (series: seq<real>)
    requires |draws| >= 29
    ensures |series| == 30 && series[0] == TotalValue(assets) * 0.85
    ensures forall k :: 1 <= k < 30 ==> series[k] == NextPrice(series[k - 1], draws[k - 1], 0.01)
  {
    var startValue := TotalValue(assets) * 0.85;
    series := GenerateHistoricalPrices(startValue, 0.01, 30, draws);
  }
}
