/** The live variant of the portfolio data: a snapshot cache over the
    reconciled holdings, and the metrics, breakdowns and performance series
    computed from whatever list the cache serves. The clock, the network and
    the outcome of the parallel batch are parameters. */
module LivePortfolioData {
  import opened Wrappers
  import opened PortfolioData
  import opened YahooFinance

  /** Five minutes, in milliseconds. */
  const CacheDuration := 5 * 60 * 1000

  /** Whether the parallel batch of reconciliations settled or was rejected. */
  datatype BatchOutcome = Settled | Rejected

  /** The module-level cache: the last refreshed list (`None` for `null`)
      and when it was fetched. */
  datatype CacheState = CacheState(cache: Option<seq<Asset>>, lastFetchTime: int)

  /** What one call returns, and the cache it leaves behind. */
  datatype Fetched = Fetched(state: CacheState, assets: seq<Asset>)

  /** Every holding of the static list can be reconciled. */
  predicate CanRefresh(sample: seq<Asset>, nowMillis: int, net: Network)
  {
    forall a :: a in sample ==> CanReprice(a, nowMillis, net)
  }

  /** `Promise.all(mockAssets.map(updateAssetWithLiveData))`: each static
      holding reconciled, in order. */
  function RefreshAll(sample: seq<Asset>, nowMillis: int, net: Network): (updated: seq<Asset>)
    requires CanRefresh(sample, nowMillis, net)
    ensures |updated| == |sample|
    ensures forall i :: 0 <= i < |sample| ==>
      updated[i] == UpdateAssetWithLiveData(sample[i], nowMillis, net) && SameHolding(sample[i], updated[i])
  {
    seq(|sample|, i requires 0 <= i < |sample| => UpdateAssetWithLiveData(sample[i], nowMillis, net))
  }

  /** The cache is fresh: set, and fetched less than five minutes ago. */
  predicate Fresh(s: CacheState, nowMillis: int)
  {
    s.cache.Some? && nowMillis - s.lastFetchTime < CacheDuration
  }

  /** A call that goes on to reconcile every holding needs each of them to be
      reconcilable; a call served from the cache or falling back issues no
      division. */
  predicate Refreshable(s: CacheState, sample: seq<Asset>, nowMillis: int, net: Network, outcome: BatchOutcome)
  {
    !Fresh(s, nowMillis) && outcome == Settled ==> CanRefresh(sample, nowMillis, net)
  }

  /** `fetchLiveAssets` as a step of the cache: serve a fresh cache; otherwise
      refresh every holding and replace the cache; if the batch is rejected,
      serve the stale cache, or the static list when there is none. */
  function FetchStep(s: CacheState, sample: seq<Asset>, nowMillis: int, net: Network, outcome: BatchOutcome): (f: Fetched)
    requires Refreshable(s, sample, nowMillis, net, outcome)
    ensures f.state.cache.Some? ==> f.assets == f.state.cache.value
    ensures f.state.cache.None? ==> f.state == s && f.assets == sample
    ensures f.state == s || f.state == CacheState(Some(f.assets), nowMillis)
  {
    if Fresh(s, nowMillis) then Fetched(s, s.cache.value)
    else if outcome == Settled then
      var updated := RefreshAll(sample, nowMillis, net);
      Fetched(CacheState(Some(updated), nowMillis), updated)
    else Fetched(s, if s.cache.Some? then s.cache.value else sample)
  }

  /** A fresh cache is served as it is, and nothing changes. */
  lemma FreshCacheServed(s: CacheState, sample: seq<Asset>, nowMillis: int, net: Network, outcome: BatchOutcome)
    requires s.cache.Some? && nowMillis - s.lastFetchTime < 300000
    ensures FetchStep(s, sample, nowMillis, net, outcome) == Fetched(s, s.cache.value)
  {
  }

  /** A refresh replaces the whole cache with the reconciled list, stamps it
      with the current time and returns exactly the new cache. */
  lemma RefreshReplacesCache(s: CacheState, sample: seq<Asset>, nowMillis: int, net: Network)
    requires CanRefresh(sample, nowMillis, net)
    requires !Fresh(s, nowMillis)
    ensures var f := FetchStep(s, sample, nowMillis, net, Settled);
      && f.state == CacheState(Some(f.assets), nowMillis)
      && |f.assets| == |sample|
      && forall i :: 0 <= i < |sample| ==> f.assets[i] == UpdateAssetWithLiveData(sample[i], nowMillis, net)
  {
  }

  /** A rejected batch leaves the cache alone and falls back to the previous
      list, however old, or to the static list. */
  lemma RejectedBatchFallsBack(s: CacheState, sample: seq<Asset>, nowMillis: int, net: Network)
    requires !Fresh(s, nowMillis)
    ensures var f := FetchStep(s, sample, nowMillis, net, Rejected);
      && f.state == s
      && (s.cache.Some? ==> f.assets == s.cache.value)
      && (s.cache.None? ==> f.assets == sample)
  {
  }

  /** Within five minutes of a refresh, the next call serves the same list
      and issues no request: the state is left as it is. */
  lemma RefreshReusedWithinWindow(s: CacheState, sample: seq<Asset>, t1: int, t2: int, net: Network,
                                  first: BatchOutcome, second: BatchOutcome)
    requires first == Settled ==> CanRefresh(sample, t1, net)
    requires !Fresh(s, t1) && t1 <= t2 < t1 + CacheDuration
    ensures var f1 := FetchStep(s, sample, t1, net, first);
      first == Settled ==> FetchStep(f1.state, sample, t2, net, second) == f1
  {
  }

  /** A list lines up with the static list: same length, and holding `i` is
      the same holding as static holding `i`. */
  predicate AlignedWith(assets: seq<Asset>, sample: seq<Asset>)
  {
    |assets| == |sample| && forall i :: 0 <= i < |sample| ==> SameHolding(sample[i], assets[i])
  }

  /** What the cache may hold: nothing, or a list lined up with the static
      list. */
  predicate CacheValid(s: CacheState, sample: seq<Asset>)
  {
    s.cache.Some? ==> AlignedWith(s.cache.value, sample)
  }

  lemma SameHoldingReflexive(sample: seq<Asset>)
    ensures AlignedWith(sample, sample)
  {
  }

  /** The cache stays lined up with the static list, every call serves a
      list lined up with it, and once set the cache is never cleared. */
  lemma FetchStepKeepsCacheValid(s: CacheState, sample: seq<Asset>, nowMillis: int, net: Network, outcome: BatchOutcome)
    requires Refreshable(s, sample, nowMillis, net, outcome) && CacheValid(s, sample)
    ensures var f := FetchStep(s, sample, nowMillis, net, outcome);
      && CacheValid(f.state, sample)
      && AlignedWith(f.assets, sample)
      && (s.cache.Some? ==> f.state.cache.Some?)
      && (f.state.lastFetchTime == s.lastFetchTime || f.state.lastFetchTime == nowMillis)
  {
    SameHoldingReflexive(sample);
  }

  // ---------------------------------------------------------------------------
  // Metrics over the live list

  /** `sum + (asset.yield || 0) * (asset.allocation / 100)`, folded. */
  function AverageYield(assets: seq<Asset>): real
  {
    if assets == [] then 0.0
    else
      var a := assets[|assets| - 1];
      AverageYield(assets[..|assets| - 1]) + a.yieldRate.GetOr(0.0) * (a.allocation / 100.0)
  }

  /** The sum of the allocation percentages. */
  function AllocationTotal(assets: seq<Asset>): real
  {
    if assets == [] then 0.0 else AllocationTotal(assets[..|assets| - 1]) + assets[|assets| - 1].allocation
  }

  /** With non-negative allocations, the average yield is an
      allocation-weighted mean: it lies between the smallest and largest
      yield (a missing yield counting as 0) scaled by the allocation total. */
  lemma {:induction false} AverageYieldBounds(assets: seq<Asset>, lo: real, hi: real)
    requires forall a :: a in assets ==> a.allocation >= 0.0 && lo <= a.yieldRate.GetOr(0.0) <= hi
    ensures lo * AllocationTotal(assets) <= 100.0 * AverageYield(assets) <= hi * AllocationTotal(assets)
  {
    if assets != [] {
      var init := assets[..|assets| - 1];
      var a := assets[|assets| - 1];
      assert forall x :: x in init ==> x in assets;
      AverageYieldBounds(init, lo, hi);
      assert a in assets;
      LastYieldBounds(assets, lo, hi);
    }
  }

  lemma LastYieldBounds(assets: seq<Asset>, lo: real, hi: real)
    requires assets != []
    requires var init := assets[..|assets| - 1];
      lo * AllocationTotal(init) <= 100.0 * AverageYield(init) <= hi * AllocationTotal(init)
    requires var a := assets[|assets| - 1]; a.allocation >= 0.0 && lo <= a.yieldRate.GetOr(0.0) <= hi
    ensures lo * AllocationTotal(assets) <= 100.0 * AverageYield(assets) <= hi * AllocationTotal(assets)
  {
    var init := assets[..|assets| - 1];
    var a := assets[|assets| - 1];
    YieldStep(AllocationTotal(init), AverageYield(init), a.allocation, a.yieldRate.GetOr(0.0), lo, hi,
              AllocationTotal(assets), AverageYield(assets));
  }

  lemma YieldStep(t0: real, y0: real, w: real, c: real, lo: real, hi: real, t: real, y: real)
    requires lo * t0 <= 100.0 * y0 <= hi * t0
    requires w >= 0.0 && lo <= c <= hi
    requires t == t0 + w && y == y0 + c * (w / 100.0)
    ensures lo * t <= 100.0 * y <= hi * t
  {
    assert c * (w / 100.0) == w * c / 100.0;
    BoundsStep(t0, y0, w, c, lo, hi, t, y);
  }

  /** `calculateLivePortfolioMetrics` on the served list: the daily figures
      from the holdings, the other horizons as fixed multiples of them (5, 22,
      252 trading days), the allocation-weighted yield, and fixed
      demonstration constants for the rest. */
  function LiveMetricsOf(assets: seq<Asset>): (m: PortfolioMetrics)
    requires TotalValue(assets) != 0.0
    ensures m.totalValue == TotalValue(assets) && m.dailyChange == DailyChangeAmount(assets)
    ensures SharesOfTotal(m)
    ensures m.weeklyChange == m.dailyChange * 5.0 && m.weeklyChangePercent == m.dailyChangePercent * 5.0
    ensures m.monthlyChange == m.dailyChange * 22.0 && m.monthlyChangePercent == m.dailyChangePercent * 22.0
    ensures m.yearlyChange == m.dailyChange * 252.0 && m.yearlyChangePercent == m.dailyChangePercent * 252.0
    ensures m.allTimeChangePercent == 35.0 && m.averageYield == AverageYield(assets)
    ensures m.volatility == 15.0 && m.sharpeRatio == 1.2 && m.duration == Some(5.4)
  {
    var totalValue := TotalValue(assets);
    var dailyChange := DailyChangeAmount(assets);
    var dailyChangePercent := Percentage(dailyChange, totalValue);
    ScaledShare(dailyChangePercent, totalValue, dailyChange, 5.0);
    ScaledShare(dailyChangePercent, totalValue, dailyChange, 22.0);
    ScaledShare(dailyChangePercent, totalValue, dailyChange, 252.0);
    assert 35.0 * totalValue == 100.0 * (totalValue * 0.35);
    PortfolioMetrics(
      totalValue, dailyChange, dailyChangePercent,
      dailyChange * 5.0, dailyChangePercent * 5.0,
      dailyChange * 22.0, dailyChangePercent * 22.0,
      dailyChange * 252.0, dailyChangePercent * 252.0,
      totalValue * 0.35, 35.0,
      15.0, 1.2, AverageYield(assets), Some(5.4))
  }

  /** On the static list the weighted yield is 2.3055, and the allocations add
      up to 100. */
  lemma SampleAverageYield(histories: seq<seq<real>>)
    requires |histories| == 8
    ensures AverageYield(SampleAssets(histories)) == 2.3055
    ensures AllocationTotal(SampleAssets(histories)) == 100.0
  {
    SampleYieldSum(histories);
    SampleAllocationSum(histories);
  }

  lemma SampleYieldSum(histories: seq<seq<real>>)
    requires |histories| == 8
    ensures AverageYield(SampleAssets(histories)) == 2.3055
  {
    var assets := SampleAssets(histories);
    var partialYields := [0.0, 0.0, 0.0, 0.0, 0.85, 1.7125, 2.0205, 2.0205, 2.0955, 2.3055];
    for k := 0 to 9
      invariant AverageYield(assets[..k]) == partialYields[k]
    {
      assert assets[..k + 1][..k] == assets[..k];
    }
    assert assets[..9] == assets;
  }

  lemma SampleAllocationSum(histories: seq<seq<real>>)
    requires |histories| == 8
    ensures AllocationTotal(SampleAssets(histories)) == 100.0
  {
    var assets := SampleAssets(histories);
    var allocations := [0.0, 15.0, 27.0, 37.0, 57.0, 72.0, 80.0, 90.0, 95.0, 100.0];
    for k := 0 to 9
      invariant AllocationTotal(assets[..k]) == allocations[k]
    {
      assert assets[..k + 1][..k] == assets[..k];
    }
    assert assets[..9] == assets;
  }

  // ---------------------------------------------------------------------------
  // Performance series

  /** The divisions of the reconstruction are defined: when the first holding
      has a history, every holding with a history has a non-zero price and a
      non-zero latest close. */
  predicate SeriesDefined(assets: seq<Asset>)
  {
    (assets != [] && assets[0].historicalPrices != []) ==>
      forall a :: a in assets && a.historicalPrices != [] ==>
        a.currentPrice != 0.0 && a.historicalPrices[|a.historicalPrices| - 1] != 0.0
  }

  /** Holding `a`'s rescaling divides by its price and its latest close. */
  predicate HistoryDefined(a: Asset)
  {
    a.historicalPrices != [] ==> a.currentPrice != 0.0 && a.historicalPrices[|a.historicalPrices| - 1] != 0.0
  }

  /** What holding `a` adds to day `day`: its close that day, rescaled so that
      the latest close is the current price, times the number of shares; a
      holding whose history is shorter adds nothing. */
  function Contribution(a: Asset, day: nat): real
    requires HistoryDefined(a)
  {
    var h := a.historicalPrices;
    if day < |h| then
      var ratio := a.currentPrice / h[|h| - 1];
      (h[day] * ratio * a.value) / a.currentPrice
    else 0.0
  }

  /** The portfolio's reconstructed value on day `day`. */
  function DayTotal(assets: seq<Asset>, day: nat): real
    requires forall a :: a in assets ==> HistoryDefined(a)
  {
    if assets == [] then 0.0
    else
      var init := assets[..|assets| - 1];
      assert forall a :: a in init ==> a in assets;
      assert assets[|assets| - 1] in assets;
      DayTotal(init, day) + Contribution(assets[|assets| - 1], day)
  }

  /** Thirty points rising linearly from 90% to 119% of the total. */
  function FallbackSeries(totalValue: real): seq<real>
  {
    seq(30, i => totalValue * (0.9 + i as real * 0.01))
  }

  /** The series `getLivePortfolioPerformanceData` computes: one point per day
      of the first holding's history, or the fallback trend. */
  function PerformanceSeriesOf(assets: seq<Asset>): seq<real>
    requires SeriesDefined(assets)
  {
    if assets != [] && assets[0].historicalPrices != [] then
      seq(|assets[0].historicalPrices|, d requires 0 <= d => DayTotal(assets, d))
    else FallbackSeries(TotalValue(assets))
  }

  /** `getLivePortfolioPerformanceData` on the served list: for each day of the
      first holding's history, add up every holding's rescaled close. */
  method PerformanceSeries(liveAssets: seq<Asset>) returns (totalByDay: seq<real>)
    requires SeriesDefined(liveAssets)
    ensures totalByDay == PerformanceSeriesOf(liveAssets)
  {
    totalByDay := [];
    if |liveAssets| > 0 && |liveAssets[0].historicalPrices| > 0 {
      var daysCount := |liveAssets[0].historicalPrices|;
      for day := 0 to daysCount
        invariant |totalByDay| == day
        invariant forall d :: 0 <= d < day ==> totalByDay[d] == DayTotal(liveAssets, d)
      {
        var dayTotal := 0.0;
        for j := 0 to |liveAssets|
          invariant dayTotal == DayTotal(liveAssets[..j], day)
        {
          var asset := liveAssets[j];
          DayTotalStep(liveAssets, j, day);
          if day < |asset.historicalPrices| {
            var ratio := asset.currentPrice / asset.historicalPrices[|asset.historicalPrices| - 1];
            dayTotal := dayTotal + (asset.historicalPrices[day] * ratio * asset.value) / asset.currentPrice;
          }
        }
        assert liveAssets[..|liveAssets|] == liveAssets;
        totalByDay := totalByDay + [dayTotal];
      }
      return;
    }
    var totalValue := TotalValue(liveAssets);
    totalByDay := seq(30, i => totalValue * (0.9 + i as real * 0.01));
  }

  /** Adding holding `j` to the day's sum adds its contribution. */
  lemma DayTotalStep(assets: seq<Asset>, j: nat, day: nat)
    requires (forall a :: a in assets ==> HistoryDefined(a)) && j < |assets|
    ensures forall a :: a in assets[..j + 1] ==> HistoryDefined(a)
    ensures forall a :: a in assets[..j] ==> HistoryDefined(a)
    ensures HistoryDefined(assets[j])
    ensures DayTotal(assets[..j + 1], day) == DayTotal(assets[..j], day) + Contribution(assets[j], day)
  {
    assert assets[..j + 1][..j] == assets[..j];
    assert assets[j] in assets;
  }

  /** A holding's contribution is its value scaled by that day's close over
      the latest close: the current price cancels out. */
  lemma ContributionIsScaledValue(a: Asset, day: nat)
    requires HistoryDefined(a) && day < |a.historicalPrices|
    ensures var h := a.historicalPrices;
      Contribution(a, day) * h[|h| - 1] == a.value * h[day]
  {
    var h := a.historicalPrices;
    RatioCancels(h[day], a.currentPrice, h[|h| - 1], a.value);
  }

  lemma RatioCancels(close: real, price: real, latest: real, value: real)
    requires price != 0.0 && latest != 0.0
    ensures (close * (price / latest) * value) / price * latest == value * close
  {
    var ratio := price / latest;
    assert ratio * latest == price;
    assert close * ratio * value * latest == close * price * value;
  }

  /** On the latest day of its history, a holding contributes its value. */
  lemma ContributionOnLatestDay(a: Asset)
    requires HistoryDefined(a) && a.historicalPrices != []
    ensures Contribution(a, |a.historicalPrices| - 1) == a.value
  {
    var h := a.historicalPrices;
    ContributionIsScaledValue(a, |h| - 1);
    var c := Contribution(a, |h| - 1);
    assert c * h[|h| - 1] == a.value * h[|h| - 1];
    CancelFactor(c, a.value, h[|h| - 1]);
  }

  lemma CancelFactor(x: real, y: real, k: real)
    requires k != 0.0 && x * k == y * k
    ensures x == y
  {
    assert (x - y) * k == 0.0;
  }

  /** A holding whose history ends before `day` adds nothing to that day. */
  lemma ShortHistoryAddsNothing(assets: seq<Asset>, a: Asset, day: nat)
    requires forall x :: x in assets ==> HistoryDefined(x)
    requires HistoryDefined(a) && |a.historicalPrices| <= day
    ensures DayTotal(assets + [a], day) == DayTotal(assets, day)
  {
    assert (assets + [a])[..|assets|] == assets;
  }

  /** When every holding has a history as long as the first one's, the last
      point of the series is the portfolio's total value. */
  lemma {:induction false} LatestDayIsTotal(assets: seq<Asset>, n: nat)
    requires n > 0
    requires forall a :: a in assets ==> HistoryDefined(a) && |a.historicalPrices| == n
    ensures DayTotal(assets, n - 1) == TotalValue(assets)
  {
    if assets != [] {
      var init := assets[..|assets| - 1];
      assert forall a :: a in init ==> a in assets;
      LatestDayIsTotal(init, n);
      assert assets[|assets| - 1] in assets;
      ContributionOnLatestDay(assets[|assets| - 1]);
    }
  }

  /** The series has one point per day of the first holding's history, or 30
      fallback points; with equally long histories it ends at the total value,
      and the fallback rises by 1% of the total each day from 90%. */
  lemma PerformanceSeriesShape(assets: seq<Asset>)
    requires SeriesDefined(assets)
    ensures var s := PerformanceSeriesOf(assets);
      |s| == if assets != [] && assets[0].historicalPrices != [] then |assets[0].historicalPrices| else 30
    ensures assets != [] && assets[0].historicalPrices != [] &&
            (forall a :: a in assets ==> |a.historicalPrices| == |assets[0].historicalPrices|) ==>
      PerformanceSeriesOf(assets)[|assets[0].historicalPrices| - 1] == TotalValue(assets)
    ensures !(assets != [] && assets[0].historicalPrices != []) ==>
      var s := PerformanceSeriesOf(assets);
      s[0] == 0.9 * TotalValue(assets) && forall i :: 1 <= i < 30 ==> s[i] - s[i - 1] == 0.01 * TotalValue(assets)
  {
    if assets != [] && assets[0].historicalPrices != [] {
      var n := |assets[0].historicalPrices|;
      if forall a :: a in assets ==> |a.historicalPrices| == n {
        assert assets[0] in assets;
        LatestDayIsTotal(assets, n);
      }
    }
  }

  // ---------------------------------------------------------------------------
  // The module state

  /** The module's mutable cache, with the static list it falls back to. */
  class LiveAssetCache {
    const mockAssets: seq<Asset>
    var liveAssetsCache: Option<seq<Asset>>
    var lastFetchTime: int

    function State(): CacheState
      reads this
    {
      CacheState(liveAssetsCache, lastFetchTime)
    }

    /** The module starts with no cache and a zero timestamp. */
    constructor (mockAssets: seq<Asset>)
      ensures this.mockAssets == mockAssets
      ensures State() == CacheState(None, 0)
    {
      this.mockAssets := mockAssets;
      liveAssetsCache := None;
      lastFetchTime := 0;
    }

    /** `fetchLiveAssets` at time `currentTime`. */
    method FetchLiveAssets(currentTime: int, net: Network, outcome: BatchOutcome) returns (assets: seq<Asset>)
      requires Refreshable(State(), mockAssets, currentTime, net, outcome)
      modifies this
      ensures Fetched(State(), assets) == FetchStep(old(State()), mockAssets, currentTime, net, outcome)
    {
      if liveAssetsCache.Some? && currentTime - lastFetchTime < CacheDuration {
        return liveAssetsCache.value;
      }
      if outcome == Settled {
        var updatedAssets := RefreshAll(mockAssets, currentTime, net);
        liveAssetsCache := Some(updatedAssets);
        lastFetchTime := currentTime;
        return updatedAssets;
      }
      if liveAssetsCache.Some? {
        return liveAssetsCache.value;
      }
      return mockAssets;
    }

    /** `calculateLivePortfolioMetrics`. */
    method CalculateLivePortfolioMetrics(currentTime: int, net: Network, outcome: BatchOutcome)
      returns (m: PortfolioMetrics)
      requires Refreshable(State(), mockAssets, currentTime, net, outcome)
      requires TotalValue(FetchStep(State(), mockAssets, currentTime, net, outcome).assets) != 0.0
      modifies this
      ensures var f := FetchStep(old(State()), mockAssets, currentTime, net, outcome);
        State() == f.state && m == LiveMetricsOf(f.assets)
    {
      var liveAssets := FetchLiveAssets(currentTime, net, outcome);
      m := LiveMetricsOf(liveAssets);
    }

    /** `calculateLiveAssetAllocation`: the by-class breakdown of the served
      list. */
    method CalculateLiveAssetAllocation(currentTime: int, net: Network, outcome: BatchOutcome)
      returns (r: seq<Allocation>)
      requires Refreshable(State(), mockAssets, currentTime, net, outcome)
      requires var assets := FetchStep(State(), mockAssets, currentTime, net, outcome).assets;
        assets != [] ==> TotalValue(assets) != 0.0
      modifies this
      ensures var f := FetchStep(old(State()), mockAssets, currentTime, net, outcome);
        State() == f.state && r == AssetAllocationOf(f.assets)
    {
      var liveAssets := FetchLiveAssets(currentTime, net, outcome);
      r := CalculateAssetAllocation(liveAssets);
    }

    /** `calculateLiveSectorAllocation`: the by-sector breakdown of the served
      list's equities. */
    method CalculateLiveSectorAllocation(currentTime: int, net: Network, outcome: BatchOutcome)
      returns (r: seq<Allocation>)
      requires Refreshable(State(), mockAssets, currentTime, net, outcome)
      requires var equities := OfType(FetchStep(State(), mockAssets, currentTime, net, outcome).assets, Equity);
        SectorEntries(equities) != [] ==> TotalValue(equities) != 0.0
      modifies this
      ensures var f := FetchStep(old(State()), mockAssets, currentTime, net, outcome);
        State() == f.state && r == SectorAllocationOf(f.assets)
    {
      var liveAssets := FetchLiveAssets(currentTime, net, outcome);
      r := CalculateSectorAllocation(liveAssets);
    }

    /** `getLivePortfolioPerformanceData`. */
    method GetLivePortfolioPerformanceData(currentTime: int, net: Network, outcome: BatchOutcome)
      returns (series: seq<real>)
      requires Refreshable(State(), mockAssets, currentTime, net, outcome)
      requires SeriesDefined(FetchStep(State(), mockAssets, currentTime, net, outcome).assets)
      modifies this
      ensures var f := FetchStep(old(State()), mockAssets, currentTime, net, outcome);
        State() == f.state && series == PerformanceSeriesOf(f.assets)
    {
      var liveAssets := FetchLiveAssets(currentTime, net, outcome);
      series := PerformanceSeries(liveAssets);
    }
  }
}
