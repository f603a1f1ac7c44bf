/** The per-asset folds behind the price replay: what one tick of `updatePrices` does to the
    price table and the charts, and what `loadGameData` and `setupUI` seed them with. */
module Replay {
  import opened Models
  import opened Ledger
  import opened Charts

  /** `asset.prices[idx]?.price !== undefined`. */
  predicate HasPrice(a: AssetData, idx: int) {
    0 <= idx < |a.prices|
  }

  /** Symbols are the assets' unique keys. */
  ghost predicate DistinctSymbols(assets: seq<AssetData>) {
    forall i, j :: 0 <= i < j < |assets| ==> assets[i].symbol != assets[j].symbol
  }

  /** The price table after one tick: each asset that has a price at `idx`, in order, writes it. */
  function TickPrices(m: Prices, assets: seq<AssetData>, idx: int): Prices
    decreases |assets|
  {
    if assets == [] then m
    else
      var a := assets[0];
      TickPrices(if HasPrice(a, idx) then m[a.symbol := a.prices[idx].price] else m, assets[1..], idx)
  }

  /** The charts after one tick: each asset that has a price at `idx` and a chart gets the
      point plotted (`updateChartData` returns early when there is no chart). */
  function TickCharts(charts: map<string, ChartData>, assets: seq<AssetData>, idx: int): map<string, ChartData>
    decreases |assets|
  {
    if assets == [] then charts
    else
      var a := assets[0];
      TickCharts(if HasPrice(a, idx) && a.symbol in charts
                 then charts[a.symbol := Plot(charts[a.symbol], a.prices[idx].price, idx)]
                 else charts, assets[1..], idx)
  }

  /** A symbol no asset prices at `idx` keeps its entry, or its absence, through a tick. */
  lemma {:induction false} TickPricesElsewhere(m: Prices, assets: seq<AssetData>, idx: int, s: string)
    requires forall i :: 0 <= i < |assets| && assets[i].symbol == s ==> !HasPrice(assets[i], idx)
    ensures s in TickPrices(m, assets, idx) <==> s in m
    ensures s in m ==> TickPrices(m, assets, idx)[s] == m[s]
    decreases |assets|
  {
    if assets != [] {
      var a := assets[0];
      assert forall i :: 0 <= i < |assets[1..]| ==> assets[1..][i] == assets[i + 1];
      TickPricesElsewhere(if HasPrice(a, idx) then m[a.symbol := a.prices[idx].price] else m, assets[1..], idx, s);
    }
  }

  /** With unique symbols, an asset priced at `idx` has that price after the tick. */
  lemma {:induction false} TickPricesAt(m: Prices, assets: seq<AssetData>, idx: int, i: int)
    requires DistinctSymbols(assets)
    requires 0 <= i < |assets| && HasPrice(assets[i], idx)
    ensures assets[i].symbol in TickPrices(m, assets, idx)
    ensures TickPrices(m, assets, idx)[assets[i].symbol] == assets[i].prices[idx].price
    decreases |assets|
  {
    var a := assets[0];
    var m' := if HasPrice(a, idx) then m[a.symbol := a.prices[idx].price] else m;
    var rest := assets[1..];
    assert forall k :: 0 <= k < |rest| ==> rest[k] == assets[k + 1];
    if i == 0 {
      TickPricesElsewhere(m', rest, idx, a.symbol);
    } else {
      assert DistinctSymbols(rest);
      TickPricesAt(m', rest, idx, i - 1);
    }
  }

  /** With unique symbols, one tick sets every asset's price to its entry at `idx`, skips the
      assets without one, and leaves every other symbol as it was. */
  lemma TickPricesSpec(m: Prices, assets: seq<AssetData>, idx: int)
    requires DistinctSymbols(assets)
    ensures var r := TickPrices(m, assets, idx);
      && (forall i :: 0 <= i < |assets| && HasPrice(assets[i], idx) ==>
            assets[i].symbol in r && r[assets[i].symbol] == assets[i].prices[idx].price)
      && (forall s :: (forall i :: 0 <= i < |assets| && assets[i].symbol == s ==> !HasPrice(assets[i], idx)) ==>
            (s in r <==> s in m) && (s in m ==> r[s] == m[s]))
  {
    forall i | 0 <= i < |assets| && HasPrice(assets[i], idx)
      ensures assets[i].symbol in TickPrices(m, assets, idx)
      ensures TickPrices(m, assets, idx)[assets[i].symbol] == assets[i].prices[idx].price
    {
      TickPricesAt(m, assets, idx, i);
    }
    forall s | forall i :: 0 <= i < |assets| && assets[i].symbol == s ==> !HasPrice(assets[i], idx)
      ensures s in TickPrices(m, assets, idx) <==> s in m
      ensures s in m ==> TickPrices(m, assets, idx)[s] == m[s]
    {
      TickPricesElsewhere(m, assets, idx, s);
    }
  }

  /** One tick adds only the symbols of assets priced at `idx` and removes none. */
  lemma {:induction false} TickPricesKeys(m: Prices, assets: seq<AssetData>, idx: int)
    ensures m.Keys <= TickPrices(m, assets, idx).Keys
    ensures TickPrices(m, assets, idx).Keys <= m.Keys + set i | 0 <= i < |assets| :: assets[i].symbol
    decreases |assets|
  {
    if assets != [] {
      var a := assets[0];
      TickPricesKeys(if HasPrice(a, idx) then m[a.symbol := a.prices[idx].price] else m, assets[1..], idx);
      assert forall i :: 0 <= i < |assets[1..]| ==> assets[1..][i] == assets[i + 1];
    }
  }

  /** A symbol no asset prices at `idx` keeps its chart, or its absence, through a tick. */
  lemma {:induction false} TickChartsElsewhere(charts: map<string, ChartData>, assets: seq<AssetData>, idx: int, s: string)
    requires forall i :: 0 <= i < |assets| && assets[i].symbol == s ==> !HasPrice(assets[i], idx)
    ensures s in TickCharts(charts, assets, idx) <==> s in charts
    ensures s in charts ==> TickCharts(charts, assets, idx)[s] == charts[s]
    decreases |assets|
  {
    if assets != [] {
      var a := assets[0];
      assert forall i :: 0 <= i < |assets[1..]| ==> assets[1..][i] == assets[i + 1];
      TickChartsElsewhere(if HasPrice(a, idx) && a.symbol in charts
                          then charts[a.symbol := Plot(charts[a.symbol], a.prices[idx].price, idx)]
                          else charts, assets[1..], idx, s);
    }
  }

  /** With unique symbols, the chart of an asset priced at `idx` gets exactly that point. */
  lemma {:induction false} TickChartsAt(charts: map<string, ChartData>, assets: seq<AssetData>, idx: int, i: int)
    requires DistinctSymbols(assets)
    requires 0 <= i < |assets| && HasPrice(assets[i], idx) && assets[i].symbol in charts
    ensures assets[i].symbol in TickCharts(charts, assets, idx)
    ensures TickCharts(charts, assets, idx)[assets[i].symbol]
         == Plot(charts[assets[i].symbol], assets[i].prices[idx].price, idx)
    decreases |assets|
  {
    var a := assets[0];
    var c' := if HasPrice(a, idx) && a.symbol in charts
              then charts[a.symbol := Plot(charts[a.symbol], a.prices[idx].price, idx)]
              else charts;
    var rest := assets[1..];
    assert forall k :: 0 <= k < |rest| ==> rest[k] == assets[k + 1];
    if i == 0 {
      TickChartsElsewhere(c', rest, idx, a.symbol);
    } else {
      assert DistinctSymbols(rest);
      TickChartsAt(c', rest, idx, i - 1);
    }
  }

  /** With unique symbols, one tick plots each asset's price at `idx` onto its chart, skips the
      assets without a price or a chart, and leaves every other chart as it was. */
  lemma TickChartsSpec(charts: map<string, ChartData>, assets: seq<AssetData>, idx: int)
    requires DistinctSymbols(assets)
    ensures var r := TickCharts(charts, assets, idx);
      && (forall i :: 0 <= i < |assets| && HasPrice(assets[i], idx) && assets[i].symbol in charts ==>
            assets[i].symbol in r && r[assets[i].symbol] == Plot(charts[assets[i].symbol], assets[i].prices[idx].price, idx))
      && (forall s :: (forall i :: 0 <= i < |assets| && assets[i].symbol == s ==> !HasPrice(assets[i], idx)) ==>
            (s in r <==> s in charts) && (s in charts ==> r[s] == charts[s]))
  {
    forall i | 0 <= i < |assets| && HasPrice(assets[i], idx) && assets[i].symbol in charts
      ensures assets[i].symbol in TickCharts(charts, assets, idx)
      ensures TickCharts(charts, assets, idx)[assets[i].symbol]
           == Plot(charts[assets[i].symbol], assets[i].prices[idx].price, idx)
    {
      TickChartsAt(charts, assets, idx, i);
    }
    forall s | forall i :: 0 <= i < |assets| && assets[i].symbol == s ==> !HasPrice(assets[i], idx)
      ensures s in TickCharts(charts, assets, idx) <==> s in charts
      ensures s in charts ==> TickCharts(charts, assets, idx)[s] == charts[s]
    {
      TickChartsElsewhere(charts, assets, idx, s);
    }
  }

  /** One tick plots only onto existing charts and every chart keeps its shape, provided the
      plotted ticks are not after `bound` and every chart of a listed asset has a point already
      (as every chart of a running game does); charts with a point keep having one. */
  lemma {:induction false} TickChartsKeepShape(charts: map<string, ChartData>, assets: seq<AssetData>, idx: int, bound: int)
    requires idx <= bound
    requires forall s :: s in charts ==> ChartOk(charts[s], bound)
    requires forall i :: 0 <= i < |assets| && assets[i].symbol in charts ==> |charts[assets[i].symbol].labels| > 0
    ensures TickCharts(charts, assets, idx).Keys == charts.Keys
    ensures forall s :: s in TickCharts(charts, assets, idx) ==> ChartOk(TickCharts(charts, assets, idx)[s], bound)
    ensures forall s :: s in charts && |charts[s].labels| > 0 ==> |TickCharts(charts, assets, idx)[s].labels| > 0
    decreases |assets|
  {
    if assets != [] {
      var a := assets[0];
      if HasPrice(a, idx) && a.symbol in charts {
        PlotKeepsChartOk(charts[a.symbol], a.prices[idx].price, idx, bound);
      }
      var c' := if HasPrice(a, idx) && a.symbol in charts
                then charts[a.symbol := Plot(charts[a.symbol], a.prices[idx].price, idx)]
                else charts;
      assert forall i :: 0 <= i < |assets[1..]| ==> assets[1..][i] == assets[i + 1];
      TickChartsKeepShape(c', assets[1..], idx, bound);
    }
  }

  // ---------------------------------------------------------------------------------------
  // Seeding at load time

  /** How many leading assets have a first price: `loadGameData` and `setupUI` stop with a
      TypeError at the first asset whose `prices[0]` is missing. */
  function LoadablePrefix(assets: seq<AssetData>): (n: nat)
    ensures n <= |assets|
    ensures forall i :: 0 <= i < n ==> assets[i].prices != []
    ensures n < |assets| ==> assets[n].prices == []
    decreases |assets|
  {
    if assets == [] || assets[0].prices == [] then 0
    else
      var rest := LoadablePrefix(assets[1..]);
      assert forall i :: 1 <= i < rest + 1 ==> assets[i] == assets[1..][i - 1];
      1 + rest
  }

  /** The loadable prefix ends exactly at the first asset without a first price. */
  lemma {:induction false} LoadablePrefixAt(assets: seq<AssetData>, n: nat)
    requires n <= |assets|
    requires forall i :: 0 <= i < n ==> assets[i].prices != []
    requires n < |assets| ==> assets[n].prices == []
    ensures LoadablePrefix(assets) == n
    decreases n
  {
    if n > 0 {
      assert forall i :: 0 <= i < n - 1 ==> assets[1..][i] == assets[i + 1];
      LoadablePrefixAt(assets[1..], n - 1);
    }
  }

  /** The symbols `loadGameData` seeds: those of the loadable prefix. */
  ghost function LoadedSymbols(assets: seq<AssetData>): set<string> {
    set i | 0 <= i < LoadablePrefix(assets) :: assets[i].symbol
  }

  /** The symbols of all assets. */
  ghost function AssetSymbols(assets: seq<AssetData>): set<string> {
    set i | 0 <= i < |assets| :: assets[i].symbol
  }

  /** The reached symbols, and the one of the asset the seeding stops at, are asset symbols. */
  lemma LoadedSymbolsAreAssets(assets: seq<AssetData>)
    ensures LoadedSymbols(assets) <= AssetSymbols(assets)
    ensures LoadablePrefix(assets) < |assets| ==> assets[LoadablePrefix(assets)].symbol in AssetSymbols(assets)
  {
    forall s | s in LoadedSymbols(assets) ensures s in AssetSymbols(assets) {
      var i :| 0 <= i < LoadablePrefix(assets) && assets[i].symbol == s;
    }
  }

  /** `loadGameData`'s price seeding: `currentPrices[symbol] = prices[0].price`, asset by asset. */
  function SeedPrices(m: Prices, assets: seq<AssetData>): Prices
    decreases |assets|
  {
    if assets == [] || assets[0].prices == [] then m
    else SeedPrices(m[assets[0].symbol := assets[0].prices[0].price], assets[1..])
  }

  /** `loadGameData`'s marker seeding: `buyMarkers[symbol] = []`, asset by asset. */
  function SeedMarkers(m: map<string, seq<Point>>, assets: seq<AssetData>): map<string, seq<Point>>
    decreases |assets|
  {
    if assets == [] || assets[0].prices == [] then m
    else SeedMarkers(m[assets[0].symbol := []], assets[1..])
  }

  /** `setupUI`'s charts: a new chart per asset, plotted with `prices[0]` at tick 0; the asset
      without a first price still gets its (empty) chart before the TypeError. */
  function SetupCharts(charts: map<string, ChartData>, assets: seq<AssetData>): map<string, ChartData>
    decreases |assets|
  {
    if assets == [] then charts
    else if assets[0].prices == [] then charts[assets[0].symbol := EmptyChart()]
    else SetupCharts(charts[assets[0].symbol := Plot(EmptyChart(), assets[0].prices[0].price, 0)], assets[1..])
  }

  /** A symbol of no asset keeps its price, or its absence, through the seeding. */
  lemma {:induction false} SeedPricesElsewhere(m: Prices, assets: seq<AssetData>, s: string)
    requires forall i :: 0 <= i < |assets| ==> assets[i].symbol != s
    ensures s in SeedPrices(m, assets) <==> s in m
    ensures s in m ==> SeedPrices(m, assets)[s] == m[s]
    decreases |assets|
  {
    if assets != [] && assets[0].prices != [] {
      assert forall i :: 0 <= i < |assets[1..]| ==> assets[1..][i] == assets[i + 1];
      SeedPricesElsewhere(m[assets[0].symbol := assets[0].prices[0].price], assets[1..], s);
    }
  }

  /** With unique symbols, a reached asset is seeded with its first price. */
  lemma {:induction false} SeedPricesAt(m: Prices, assets: seq<AssetData>, i: int)
    requires DistinctSymbols(assets) && 0 <= i < LoadablePrefix(assets)
    ensures assets[i].symbol in SeedPrices(m, assets)
    ensures SeedPrices(m, assets)[assets[i].symbol] == assets[i].prices[0].price
    decreases |assets|
  {
    var a := assets[0];
    var rest := assets[1..];
    assert forall k :: 0 <= k < |rest| ==> rest[k] == assets[k + 1];
    assert LoadablePrefix(assets) == 1 + LoadablePrefix(rest);
    if i == 0 {
      SeedPricesElsewhere(m[a.symbol := a.prices[0].price], rest, a.symbol);
    } else {
      assert DistinctSymbols(rest);
      SeedPricesAt(m[a.symbol := a.prices[0].price], rest, i - 1);
    }
  }

  /** The key sets and the untouched entries of the seeding. */
  lemma {:induction false} SeedKeys(prices: Prices, markers: map<string, seq<Point>>, assets: seq<AssetData>)
    ensures SeedPrices(prices, assets).Keys == prices.Keys + LoadedSymbols(assets)
    ensures SeedMarkers(markers, assets).Keys == markers.Keys + LoadedSymbols(assets)
    ensures forall s :: s in LoadedSymbols(assets) ==> SeedMarkers(markers, assets)[s] == []
    ensures forall s :: s in prices && s !in LoadedSymbols(assets) ==> SeedPrices(prices, assets)[s] == prices[s]
    ensures forall s :: s in markers && s !in LoadedSymbols(assets) ==> SeedMarkers(markers, assets)[s] == markers[s]
    decreases |assets|
  {
    if assets != [] && assets[0].prices != [] {
      var a := assets[0];
      SeedKeys(prices[a.symbol := a.prices[0].price], markers[a.symbol := []], assets[1..]);
      LoadedSymbolsStep(assets);
    }
  }

  /** Loading gives every reached symbol an empty stored marker list and, when symbols are
      unique, its first price; it touches no other symbol. */
  lemma SeedSpec(prices: Prices, markers: map<string, seq<Point>>, assets: seq<AssetData>)
    ensures DistinctSymbols(assets) ==> forall i :: 0 <= i < LoadablePrefix(assets) ==>
      assets[i].symbol in SeedPrices(prices, assets) && SeedPrices(prices, assets)[assets[i].symbol] == assets[i].prices[0].price
    ensures SeedPrices(prices, assets).Keys == prices.Keys + LoadedSymbols(assets)
    ensures SeedMarkers(markers, assets).Keys == markers.Keys + LoadedSymbols(assets)
    ensures forall s :: s in LoadedSymbols(assets) ==> SeedMarkers(markers, assets)[s] == []
    ensures forall s :: s in prices && s !in LoadedSymbols(assets) ==> SeedPrices(prices, assets)[s] == prices[s]
    ensures forall s :: s in markers && s !in LoadedSymbols(assets) ==> SeedMarkers(markers, assets)[s] == markers[s]
  {
    SeedKeys(prices, markers, assets);
    if DistinctSymbols(assets) {
      forall i | 0 <= i < LoadablePrefix(assets)
        ensures assets[i].symbol in SeedPrices(prices, assets)
        ensures SeedPrices(prices, assets)[assets[i].symbol] == assets[i].prices[0].price
      {
        SeedPricesAt(prices, assets, i);
      }
    }
  }

  /** `LoadedSymbols` of an asset list whose head has a price: the head's symbol and the rest's. */
  lemma LoadedSymbolsStep(assets: seq<AssetData>)
    requires assets != [] && assets[0].prices != []
    ensures LoadedSymbols(assets) == {assets[0].symbol} + LoadedSymbols(assets[1..])
  {
    var n := LoadablePrefix(assets);
    assert n == 1 + LoadablePrefix(assets[1..]);
    forall s | s in LoadedSymbols(assets) ensures s in {assets[0].symbol} + LoadedSymbols(assets[1..]) {
      var i :| 0 <= i < n && assets[i].symbol == s;
      if i > 0 {
        assert assets[1..][i - 1] == assets[i];
      }
    }
    forall s | s in LoadedSymbols(assets[1..]) ensures s in LoadedSymbols(assets) {
      var i :| 0 <= i < LoadablePrefix(assets[1..]) && assets[1..][i].symbol == s;
      assert assets[i + 1] == assets[1..][i];
    }
  }

  /** One step of `setupUI`'s loop, at asset `i`. */
  lemma SetupChartsStep(charts: map<string, ChartData>, assets: seq<AssetData>, i: int)
    requires 0 <= i < |assets|
    ensures assets[i].prices == [] ==> SetupCharts(charts, assets[i..]) == charts[assets[i].symbol := EmptyChart()]
    ensures assets[i].prices != [] ==>
      SetupCharts(charts, assets[i..])
        == SetupCharts(charts[assets[i].symbol := Plot(EmptyChart(), assets[i].prices[0].price, 0)], assets[i + 1..])
  {
    assert assets[i..][0] == assets[i];
    assert assets[i..][1..] == assets[i + 1..];
  }

  /** `setupUI` creates a chart for every reached symbol, plus the one without points it stops
      at, and for no other symbol. */
  lemma {:induction false} SetupChartsKeys(charts: map<string, ChartData>, assets: seq<AssetData>)
    ensures charts.Keys + LoadedSymbols(assets) <= SetupCharts(charts, assets).Keys
    ensures SetupCharts(charts, assets).Keys <= charts.Keys + LoadedSymbols(assets)
      + (if LoadablePrefix(assets) < |assets| then {assets[LoadablePrefix(assets)].symbol} else {})
    ensures LoadablePrefix(assets) < |assets| ==> assets[LoadablePrefix(assets)].symbol in SetupCharts(charts, assets)
    decreases |assets|
  {
    if assets != [] && assets[0].prices != [] {
      var a := assets[0];
      SetupChartsKeys(charts[a.symbol := Plot(EmptyChart(), a.prices[0].price, 0)], assets[1..]);
      LoadedSymbolsStep(assets);
      if LoadablePrefix(assets) < |assets| {
        assert assets[LoadablePrefix(assets)] == assets[1..][LoadablePrefix(assets[1..])];
      }
    }
  }

  /** Every chart `setupUI` leaves is well shaped, whatever the replay position. */
  lemma {:induction false} SetupChartsShaped(charts: map<string, ChartData>, assets: seq<AssetData>, bound: int)
    requires 0 <= bound
    requires forall s :: s in charts ==> ChartOk(charts[s], bound)
    ensures forall s :: s in SetupCharts(charts, assets) ==> ChartOk(SetupCharts(charts, assets)[s], bound)
    decreases |assets|
  {
    if assets != [] && assets[0].prices != [] {
      var a := assets[0];
      PlotKeepsChartOk(EmptyChart(), a.prices[0].price, 0, bound);
      SetupChartsShaped(charts[a.symbol := Plot(EmptyChart(), a.prices[0].price, 0)], assets[1..], bound);
    }
  }

  /** When no asset is missing its first price, `setupUI` leaves every listed asset a chart with
      a point. */
  lemma {:induction false} SetupChartsCover(charts: map<string, ChartData>, assets: seq<AssetData>)
    requires LoadablePrefix(assets) == |assets|
    ensures forall i :: 0 <= i < |assets| ==>
      assets[i].symbol in SetupCharts(charts, assets) && |SetupCharts(charts, assets)[assets[i].symbol].labels| > 0
    decreases |assets|
  {
    if assets != [] {
      var a := assets[0];
      var c' := charts[a.symbol := Plot(EmptyChart(), a.prices[0].price, 0)];
      SetupChartsCover(c', assets[1..]);
      SetupChartsKeep(c', assets[1..], a.symbol);
      assert forall i :: 0 <= i < |assets[1..]| ==> assets[1..][i] == assets[i + 1];
    }
  }

  /** A chart with a point keeps having one through `setupUI` when no asset is missing its
      first price. */
  lemma {:induction false} SetupChartsKeep(charts: map<string, ChartData>, assets: seq<AssetData>, s: string)
    requires s in charts && |charts[s].labels| > 0 && LoadablePrefix(assets) == |assets|
    ensures s in SetupCharts(charts, assets) && |SetupCharts(charts, assets)[s].labels| > 0
    decreases |assets|
  {
    if assets != [] {
      var a := assets[0];
      SetupChartsKeep(charts[a.symbol := Plot(EmptyChart(), a.prices[0].price, 0)], assets[1..], s);
    }
  }

  /** A symbol of no asset keeps its chart, or its absence, through `setupUI`. */
  lemma {:induction false} SetupChartsElsewhere(charts: map<string, ChartData>, assets: seq<AssetData>, s: string)
    requires forall i :: 0 <= i < |assets| ==> assets[i].symbol != s
    ensures s in SetupCharts(charts, assets) <==> s in charts
    ensures s in charts ==> SetupCharts(charts, assets)[s] == charts[s]
    decreases |assets|
  {
    if assets != [] && assets[0].prices != [] {
      assert forall i :: 0 <= i < |assets[1..]| ==> assets[1..][i] == assets[i + 1];
      SetupChartsElsewhere(charts[assets[0].symbol := Plot(EmptyChart(), assets[0].prices[0].price, 0)], assets[1..], s);
    }
  }

  /** With unique symbols, `setupUI` leaves a reached asset the new chart holding its first
      price at tick 0, and the asset it stops at an empty chart. */
  lemma {:induction false} SetupChartsAt(charts: map<string, ChartData>, assets: seq<AssetData>, i: int)
    requires DistinctSymbols(assets) && 0 <= i <= LoadablePrefix(assets) && i < |assets|
    ensures assets[i].symbol in SetupCharts(charts, assets)
    ensures SetupCharts(charts, assets)[assets[i].symbol]
         == if i < LoadablePrefix(assets) then Plot(EmptyChart(), assets[i].prices[0].price, 0) else EmptyChart()
    decreases |assets|
  {
    var a := assets[0];
    if a.prices != [] {
      var rest := assets[1..];
      var c' := charts[a.symbol := Plot(EmptyChart(), a.prices[0].price, 0)];
      assert forall k :: 0 <= k < |rest| ==> rest[k] == assets[k + 1];
      assert LoadablePrefix(assets) == 1 + LoadablePrefix(rest);
      if i == 0 {
        SetupChartsElsewhere(c', rest, a.symbol);
      } else {
        assert DistinctSymbols(rest);
        SetupChartsAt(c', rest, i - 1);
      }
    }
  }

  /** With unique symbols, the charts after `setupUI`: every reached asset has a chart with
      exactly its first price at tick 0, the asset without a first price (if any) an empty chart,
      and the charts of symbols of no asset are untouched. */
  lemma SetupChartsSpec(charts: map<string, ChartData>, assets: seq<AssetData>)
    requires DistinctSymbols(assets)
    ensures var r := SetupCharts(charts, assets);
      && (forall i :: 0 <= i < LoadablePrefix(assets) ==>
            assets[i].symbol in r && r[assets[i].symbol] == Plot(EmptyChart(), assets[i].prices[0].price, 0))
      && (LoadablePrefix(assets) < |assets| ==>
            assets[LoadablePrefix(assets)].symbol in r && r[assets[LoadablePrefix(assets)].symbol] == EmptyChart())
      && (forall s :: (forall i :: 0 <= i < |assets| ==> assets[i].symbol != s) ==>
            (s in r <==> s in charts) && (s in charts ==> r[s] == charts[s]))
  {
    forall i | 0 <= i < LoadablePrefix(assets)
      ensures assets[i].symbol in SetupCharts(charts, assets)
      ensures SetupCharts(charts, assets)[assets[i].symbol] == Plot(EmptyChart(), assets[i].prices[0].price, 0)
    {
      SetupChartsAt(charts, assets, i);
    }
    if LoadablePrefix(assets) < |assets| {
      SetupChartsAt(charts, assets, LoadablePrefix(assets));
    }
    forall s | forall i :: 0 <= i < |assets| ==> assets[i].symbol != s
      ensures s in SetupCharts(charts, assets) <==> s in charts
      ensures s in charts ==> SetupCharts(charts, assets)[s] == charts[s]
    {
      SetupChartsElsewhere(charts, assets, s);
    }
  }

  /** Tick 0 is plotted twice: `setupUI` plots each asset's first price at label 0, and the first
      `updatePrices`, at replay position 0, plots the same price at label 0 again. */
  lemma FirstTickRepeatsLabelZero(charts: map<string, ChartData>, assets: seq<AssetData>, i: int)
    requires DistinctSymbols(assets) && 0 <= i < LoadablePrefix(assets)
    ensures var r := TickCharts(SetupCharts(charts, assets), assets, 0);
      && assets[i].symbol in r
      && r[assets[i].symbol].labels == [0, 0]
      && r[assets[i].symbol].prices == [assets[i].prices[0].price, assets[i].prices[0].price]
  {
    SetupChartsAt(charts, assets, i);
    TickChartsAt(SetupCharts(charts, assets), assets, 0, i);
  }
}
