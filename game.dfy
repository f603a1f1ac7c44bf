/** The browser-side game session, class `CryptoRushGame` of the client script, without its DOM
    and chart rendering: cash and holdings, the price table, the replay position, the countdown,
    the running flag, the interval handles, the charts' data, the stored buy markers and the
    event feed. */
module Game {
  import opened Wrappers
  import opened Models
  import opened Sequences
  import opened Ledger
  import opened Charts
  import opened Replay

  /** The cash a session starts with before the server's `startBalance` arrives: $10000. */
  const DefaultBalance: Cents := 1_000_000

  /** The countdown a session starts with, in seconds. */
  const RoundSeconds: int := 180

  /** The event feed keeps this many entries. */
  const FeedLength: nat := 5

  /** The CSS flavour of a feed entry (`event-${type}`). */
  datatype EventKind = Pump | Dump | Neutral

  /** What a feed entry says; the dollar formatting of prices is not modelled. */
  datatype Message = Bought(symbol: string, price: Cents) | Sold(symbol: string, price: Cents) | Text(text: string)

  datatype FeedEntry = FeedEntry(message: Message, kind: EventKind)

  /** The four market events `generateEvent` draws from, in order. */
  const MarketEvents: seq<FeedEntry> := [
    FeedEntry(Text("📰 Market rally! All prices surge!"), Pump),
    FeedEntry(Text("💥 Market crash! Panic selling!"), Dump),
    FeedEntry(Text("🐋 Whale spotted in the market"), Neutral),
    FeedEntry(Text("📊 Trading volume spike detected"), Neutral)
  ]

  /** What `endGame` shows: the final balance and the profit over the starting balance. */
  datatype Settlement = Settlement(finalBalance: Cents, profit: Cents)

  /** The feed after `addEvent`: the new entry first, then the newest old entries, at most
      `FeedLength` in all. */
  function Posted(feed: seq<FeedEntry>, e: FeedEntry): (r: seq<FeedEntry>)
    ensures |r| == if |feed| < FeedLength then |feed| + 1 else FeedLength
    ensures r[0] == e && r[1..] == feed[..|r| - 1]
  {
    ([e] + feed)[..if |feed| < FeedLength then |feed| + 1 else FeedLength]
  }

  // ---------------------------------------------------------------------------------------
  // The session invariant, on values

  /** Every chart is well shaped up to replay position `bound`. */
  ghost predicate ChartsShaped(charts: map<string, ChartData>, bound: int) {
    forall s :: s in charts ==> ChartOk(charts[s], bound)
  }

  /** The symbols of the loaded assets; none without game data. */
  ghost function DataSymbols(data: Option<GameData>): set<string> {
    if data.None? then {} else AssetSymbols(data.value.assets)
  }

  /** Prices, charts and marker lists exist only for symbols of the loaded assets, and the
      replay position has not passed the duration (it is 0 before any tick). */
  ghost predicate WithinData(data: Option<GameData>, prices: Prices, charts: map<string, ChartData>,
                             markers: map<string, seq<Point>>, priceIndex: nat) {
    && prices.Keys <= DataSymbols(data)
    && charts.Keys <= DataSymbols(data)
    && markers.Keys <= DataSymbols(data)
    && (priceIndex == 0 || (data.Some? && priceIndex <= data.value.duration))
  }

  /** Every priced symbol, and every symbol the game data loaded, has a stored marker list. */
  ghost predicate MarkersCover(prices: Prices, markers: map<string, seq<Point>>, data: Option<GameData>) {
    && prices.Keys <= markers.Keys
    && (data.Some? ==> LoadedSymbols(data.value.assets) <= markers.Keys)
  }

  /** What `startGame` needs: the game data is loaded, no asset lacks a first price and every
      asset has a chart with a point, so that ticks only ever plot onto such charts. */
  ghost predicate Ready(data: Option<GameData>, charts: map<string, ChartData>) {
    && data.Some?
    && LoadablePrefix(data.value.assets) == |data.value.assets|
    && forall i :: 0 <= i < |data.value.assets| ==>
         data.value.assets[i].symbol in charts && |charts[data.value.assets[i].symbol].labels| > 0
  }

  // ---------------------------------------------------------------------------------------
  // Marker effects

  /** `addBuyMarker`'s effect on the charts: an existing chart gets the point, else nothing. */
  function ChartsWithBuy(charts: map<string, ChartData>, symbol: string, price: Cents, index: int): map<string, ChartData> {
    if symbol in charts then charts[symbol := AddBuy(charts[symbol], price, index)] else charts
  }

  /** `addSellMarker`'s effect on the charts. */
  function ChartsWithSell(charts: map<string, ChartData>, symbol: string, price: Cents, index: int): map<string, ChartData> {
    if symbol in charts then charts[symbol := AddSell(charts[symbol], price, index)] else charts
  }

  /** `addBuyMarker`'s effect on the stored markers: appended only when the chart exists. */
  function MarkersWithBuy(charts: map<string, ChartData>, markers: map<string, seq<Point>>, symbol: string, price: Cents, index: int): (r: map<string, seq<Point>>)
    requires symbol in charts ==> symbol in markers
    ensures r.Keys == markers.Keys
  {
    if symbol in charts then markers[symbol := markers[symbol] + [Point(index, price)]] else markers
  }

  /** `removeBuyMarker`'s effect on the charts: the closest buy point within tolerance leaves
      the chart; with no chart or no such point nothing changes. */
  function ChartsWithoutBuy(charts: map<string, ChartData>, symbol: string, price: Cents, index: int): map<string, ChartData> {
    if symbol in charts && ClosestBuy(charts[symbol].buys, price, index) != -1
    then charts[symbol := DropBuy(charts[symbol], ClosestBuy(charts[symbol].buys, price, index))]
    else charts
  }

  /** `removeBuyMarker`'s effect on the stored markers: only when a chart point was removed, the
      list loses every marker that is near `index` and within tolerance. */
  function MarkersWithoutBuy(charts: map<string, ChartData>, markers: map<string, seq<Point>>, symbol: string, price: Cents, index: int): (r: map<string, seq<Point>>)
    requires symbol in charts ==> symbol in markers
    ensures r.Keys == markers.Keys
  {
    if symbol in charts && ClosestBuy(charts[symbol].buys, price, index) != -1
    then markers[symbol := Filter(markers[symbol], Unmatched(price, index))]
    else markers
  }

  /** Adding a marker at or after the replay position keeps every chart's shape and points. */
  lemma MarkersKeepShape(charts: map<string, ChartData>, symbol: string, price: Cents, index: int, bound: int, data: Option<GameData>)
    requires ChartsShaped(charts, bound) && bound <= index
    ensures ChartsShaped(ChartsWithBuy(charts, symbol, price, index), bound)
    ensures ChartsShaped(ChartsWithSell(charts, symbol, price, index), bound)
    ensures Ready(data, charts) ==> Ready(data, ChartsWithBuy(charts, symbol, price, index))
    ensures Ready(data, charts) ==> Ready(data, ChartsWithSell(charts, symbol, price, index))
  {
    if symbol in charts {
      AddMarkersKeepChartOk(charts[symbol], price, index, bound);
    }
  }

  /** Removing a buy marker keeps every chart's shape and points. */
  lemma RemovalKeepsShape(charts: map<string, ChartData>, symbol: string, price: Cents, index: int, bound: int, data: Option<GameData>)
    requires ChartsShaped(charts, bound)
    ensures ChartsShaped(ChartsWithoutBuy(charts, symbol, price, index), bound)
    ensures Ready(data, charts) ==> Ready(data, ChartsWithoutBuy(charts, symbol, price, index))
  {
    if symbol in charts && ClosestBuy(charts[symbol].buys, price, index) != -1 {
      SpliceKeepsChartOk(charts[symbol], ClosestBuy(charts[symbol].buys, price, index), bound);
    }
  }

  /** A tick of a ready session adds only loaded symbols to the price table, and its charts keep
      their shape one position later and keep their points. */
  lemma TickKeepsShape(prices: Prices, markers: map<string, seq<Point>>, charts: map<string, ChartData>, data: Option<GameData>, idx: int)
    requires Ready(data, charts) && MarkersCover(prices, markers, data) && ChartsShaped(charts, idx)
    ensures prices.Keys <= TickPrices(prices, data.value.assets, idx).Keys
    ensures MarkersCover(TickPrices(prices, data.value.assets, idx), markers, data)
    ensures TickPrices(prices, data.value.assets, idx).Keys <= prices.Keys + AssetSymbols(data.value.assets)
    ensures TickCharts(charts, data.value.assets, idx).Keys == charts.Keys
    ensures ChartsShaped(TickCharts(charts, data.value.assets, idx), idx + 1)
    ensures Ready(data, TickCharts(charts, data.value.assets, idx))
  {
    var assets := data.value.assets;
    TickPricesKeys(prices, assets, idx);
    forall i | 0 <= i < |assets| ensures assets[i].symbol in markers {
      assert assets[i].symbol in LoadedSymbols(assets);
    }
    TickChartsKeepShape(charts, assets, idx, idx + 1);
  }

  /** A session's state as one value. */
  datatype Session = Session(
    gameData: Option<GameData>, account: Account, charts: map<string, ChartData>, timeLeft: int,
    isRunning: bool, currentPrices: Prices, priceIndex: nat, intervals: seq<nat>,
    buyMarkers: map<string, seq<Point>>, events: seq<FeedEntry>)

  /** The session invariant: the ledger is well formed (no negative holding, the key order
      lists each key once) and every held symbol is priced; the countdown is never negative; the
      feed is bounded; the charts are well shaped at the replay position; the marker lists cover
      the priced and loaded symbols; prices, charts and marker lists exist only for symbols of
      the loaded assets; the replay position has not passed the duration (it is 0 before any
      tick); and a running session is ready to run. */
  ghost predicate SessionOk(s: Session) {
    && WellFormed(s.account) && Priced(s.account, s.currentPrices)
    && s.timeLeft >= 0
    && |s.events| <= FeedLength
    && ChartsShaped(s.charts, s.priceIndex)
    && MarkersCover(s.currentPrices, s.buyMarkers, s.gameData)
    && WithinData(s.gameData, s.currentPrices, s.charts, s.buyMarkers, s.priceIndex)
    && (s.isRunning ==> Ready(s.gameData, s.charts))
  }

  /** Every holding, price, chart and marker list is for a symbol of the loaded assets, and
      without game data all of them are empty and the replay has not started. */
  lemma SessionSymbols(s: Session)
    requires SessionOk(s)
    ensures s.account.portfolio.Keys <= DataSymbols(s.gameData)
    ensures s.gameData.None? ==>
      s.account.portfolio == map[] && s.currentPrices == map[] && s.charts == map[] && s.buyMarkers == map[]
      && s.priceIndex == 0 && !s.isRunning
  {
  }

  /** `loadGameData` keeps the invariant: `t` is the session `s`, which has no game data yet,
      with game data `d` loaded, its start balance taken and its first prices and marker lists
      seeded. */
  lemma LoadKeepsSession(s: Session, t: Session, d: GameData)
    requires SessionOk(s) && s.gameData.None?
    requires t.gameData == Some(d) && t.account == s.account.(balance := d.startBalance)
    requires t.currentPrices == SeedPrices(s.currentPrices, d.assets)
    requires t.buyMarkers == SeedMarkers(s.buyMarkers, d.assets)
    requires t.charts == s.charts && t.timeLeft == s.timeLeft && t.isRunning == s.isRunning
    requires t.priceIndex == s.priceIndex && t.events == s.events
    ensures SessionOk(t)
  {
    SeedSpec(s.currentPrices, s.buyMarkers, d.assets);
    LoadedSymbolsAreAssets(d.assets);
  }

  /** `setupUI` keeps the invariant, and when no asset lacks a first price the session is ready:
      `t` is `s` with the charts of its game data set up. */
  lemma SetupKeepsSession(s: Session, t: Session)
    requires SessionOk(s) && s.gameData.Some?
    requires t.charts == SetupCharts(s.charts, s.gameData.value.assets)
    requires t.gameData == s.gameData && t.account == s.account && t.timeLeft == s.timeLeft
    requires t.isRunning == s.isRunning && t.currentPrices == s.currentPrices
    requires t.priceIndex == s.priceIndex && t.buyMarkers == s.buyMarkers && t.events == s.events
    ensures SessionOk(t)
    ensures LoadablePrefix(s.gameData.value.assets) == |s.gameData.value.assets| ==> Ready(t.gameData, t.charts)
  {
    var assets := s.gameData.value.assets;
    SetupChartsShaped(s.charts, assets, s.priceIndex);
    SetupChartsKeys(s.charts, assets);
    LoadedSymbolsAreAssets(assets);
    if LoadablePrefix(assets) == |assets| {
      SetupChartsCover(s.charts, assets);
    }
  }

  /** Stopping keeps the invariant: `t` is `s` with the running flag down and no interval. */
  lemma StopKeepsSession(s: Session, t: Session)
    requires SessionOk(s)
    requires !t.isRunning && t.intervals == []
    requires t.gameData == s.gameData && t.account == s.account && t.charts == s.charts
    requires t.timeLeft == s.timeLeft && t.currentPrices == s.currentPrices && t.priceIndex == s.priceIndex
    requires t.buyMarkers == s.buyMarkers && t.events == s.events
    ensures SessionOk(t)
  {
  }

  /** A tick keeps the invariant: `t` is the running session `s` one replay position later,
      with the tick's prices and points. */
  lemma TickKeepsSession(s: Session, t: Session)
    requires SessionOk(s) && s.isRunning && s.priceIndex < s.gameData.value.duration
    requires t.currentPrices == TickPrices(s.currentPrices, s.gameData.value.assets, s.priceIndex)
    requires t.charts == TickCharts(s.charts, s.gameData.value.assets, s.priceIndex)
    requires t.priceIndex == s.priceIndex + 1
    requires t.gameData == s.gameData && t.account == s.account && t.timeLeft == s.timeLeft
    requires t.isRunning && t.buyMarkers == s.buyMarkers && t.events == s.events
    ensures SessionOk(t)
  {
    TickKeepsShape(s.currentPrices, s.buyMarkers, s.charts, s.gameData, s.priceIndex);
  }

  /** Posting to the feed keeps the invariant: `t` is `s` with a feed of at most `FeedLength`. */
  lemma FeedKeepsSession(s: Session, t: Session)
    requires SessionOk(s) && |t.events| <= FeedLength
    requires t.gameData == s.gameData && t.account == s.account && t.charts == s.charts
    requires t.timeLeft == s.timeLeft && t.isRunning == s.isRunning && t.currentPrices == s.currentPrices
    requires t.priceIndex == s.priceIndex && t.intervals == s.intervals && t.buyMarkers == s.buyMarkers
    ensures SessionOk(t)
  {
  }

  /** `buy` keeps the invariant: `t` is the session after buying one `symbol` in `s`. */
  lemma BuyKeepsSession(s: Session, t: Session, symbol: string)
    requires SessionOk(s) && CanBuy(s.account, s.currentPrices, symbol)
    requires t.gameData == s.gameData && t.timeLeft == s.timeLeft && t.isRunning == s.isRunning
    requires t.currentPrices == s.currentPrices && t.priceIndex == s.priceIndex
    requires t.account == Ledger.Buy(s.account, s.currentPrices, symbol)
    requires t.charts == ChartsWithBuy(s.charts, symbol, s.currentPrices[symbol], s.priceIndex)
    requires t.buyMarkers == MarkersWithBuy(s.charts, s.buyMarkers, symbol, s.currentPrices[symbol], s.priceIndex)
    requires |t.events| <= FeedLength
    ensures SessionOk(t)
  {
    BuyKeepsShape(s.account, s.currentPrices, symbol);
    MarkersKeepShape(s.charts, symbol, s.currentPrices[symbol], s.priceIndex, s.priceIndex, s.gameData);
  }

  /** `sell` keeps the invariant: `t` is the session after selling one `symbol` in `s`. */
  lemma SellKeepsSession(s: Session, t: Session, symbol: string)
    requires SessionOk(s) && CanSell(s.account, symbol)
    requires t.gameData == s.gameData && t.timeLeft == s.timeLeft && t.isRunning == s.isRunning
    requires t.currentPrices == s.currentPrices && t.priceIndex == s.priceIndex
    requires t.account == Ledger.Sell(s.account, s.currentPrices, symbol)
    requires var marked := ChartsWithSell(s.charts, symbol, s.currentPrices[symbol], s.priceIndex);
      && t.charts == ChartsWithoutBuy(marked, symbol, s.currentPrices[symbol], s.priceIndex)
      && t.buyMarkers == MarkersWithoutBuy(marked, s.buyMarkers, symbol, s.currentPrices[symbol], s.priceIndex)
    requires |t.events| <= FeedLength
    ensures SessionOk(t)
  {
    SellKeepsShape(s.account, s.currentPrices, symbol);
    var price := s.currentPrices[symbol];
    MarkersKeepShape(s.charts, symbol, price, s.priceIndex, s.priceIndex, s.gameData);
    RemovalKeepsShape(ChartsWithSell(s.charts, symbol, price, s.priceIndex), symbol, price, s.priceIndex, s.priceIndex, s.gameData);
  }

  class CryptoRushGame {
    var gameData: Option<GameData>
    var balance: Cents
    var portfolio: map<string, int>
    var holdingOrder: seq<string>  // the portfolio's key order, as `Object.entries` lists it
    var charts: map<string, ChartData>
    var timeLeft: int
    var isRunning: bool
    var trades: nat
    var currentPrices: Prices
    var priceIndex: nat
    var intervals: seq<nat>  // the setInterval handles
    var buyMarkers: map<string, seq<Point>>
    var events: seq<FeedEntry>  // the children of the events feed, newest first

    /** Cash, holdings and trade count as one ledger value. */
    function AccountView(): Account
      reads this
    {
      Account(balance, portfolio, holdingOrder, trades)
    }

    /** The session invariant: the ledger is well formed (no negative holding, the key order
        lists each key once) and every held symbol is priced; the countdown is never negative; the
        feed is bounded; the charts are well shaped at the replay position; the marker lists cover
        the priced and loaded symbols; and a running session is ready to run. */
    ghost predicate Valid()
      reads this
    {
      SessionOk(State())
    }

    function State(): Session
      reads this
    {
      Session(gameData, AccountView(), charts, timeLeft, isRunning, currentPrices, priceIndex, intervals, buyMarkers, events)
    }

    /** Every field at its value from the constructor. */
    ghost predicate Initial()
      reads this
    {
      && gameData == None && balance == DefaultBalance && portfolio == map[] && holdingOrder == []
      && charts == map[] && timeLeft == RoundSeconds && !isRunning && trades == 0
      && currentPrices == map[] && priceIndex == 0 && intervals == [] && buyMarkers == map[] && events == []
    }

    /** The constructor's state satisfies the session invariant. */
    lemma InitialIsValid()
      requires Initial()
      ensures Valid()
    {
      assert WellFormed(AccountView());
    }

    constructor ()
      ensures Valid() && Initial()
    {
      gameData := None;
      balance := DefaultBalance;
      portfolio := map[];
      holdingOrder := [];
      charts := map[];
      timeLeft := RoundSeconds;
      isRunning := false;
      trades := 0;
      currentPrices := map[];
      priceIndex := 0;
      intervals := [];
      buyMarkers := map[];
      events := [];
      new;
      InitialIsValid();
    }

    // -------------------------------------------------------------------------------------
    // Loading and starting

    /** `loadGameData` once the fetch has settled: `response` is the decoded body, or None when
        the fetch failed. The first asset without a first price stops the seeding with a
        TypeError that the method's own `catch` swallows, leaving what was seeded so far. */
    method LoadGameData(response: Option<GameData>) returns (ok: bool)
      requires Valid() && gameData.None?
      modifies this`gameData, this`balance, this`currentPrices, this`buyMarkers
      ensures Valid()
      ensures response.None? ==> !ok && unchanged(this)
      ensures response.Some? ==>
        && gameData == response && balance == response.value.startBalance
        && currentPrices == SeedPrices(old(currentPrices), response.value.assets)
        && buyMarkers == SeedMarkers(old(buyMarkers), response.value.assets)
        && ok == (LoadablePrefix(response.value.assets) == |response.value.assets|)
    {
      if response.None? {
        return false;
      }
      var d := response.value;
      gameData, balance := response, d.startBalance;
      var prices, markers := currentPrices, buyMarkers;
      ok := true;
      var i := 0;
      while i < |d.assets|
        invariant 0 <= i <= |d.assets|
        invariant SeedPrices(prices, d.assets[i..]) == SeedPrices(old(currentPrices), d.assets)
        invariant SeedMarkers(markers, d.assets[i..]) == SeedMarkers(old(buyMarkers), d.assets)
        invariant forall j :: 0 <= j < i ==> d.assets[j].prices != []
        invariant ok
        modifies {}
      {
        var a := d.assets[i];
        if a.prices == [] {
          ok := false;  // `asset.prices[0].price` throws
          break;
        }
        prices := prices[a.symbol := a.prices[0].price];
        markers := markers[a.symbol := []];
        assert d.assets[i..][1..] == d.assets[i + 1..];
        i := i + 1;
      }
      currentPrices, buyMarkers := prices, markers;
      LoadablePrefixAt(d.assets, i);
      LoadKeepsSession(old(State()), State(), d);
    }

    /** The chart part of `setupUI`: per asset a new, empty chart, then its first price plotted
        at tick 0. Without game data, or at an asset without a first price, a TypeError ends it. */
    method SetupUI() returns (ok: bool)
      requires Valid()
      modifies this`charts
      ensures Valid()
      ensures gameData.None? ==> !ok && charts == old(charts)
      ensures gameData.Some? ==>
        && charts == SetupCharts(old(charts), gameData.value.assets)
        && ok == (LoadablePrefix(gameData.value.assets) == |gameData.value.assets|)
      ensures ok ==> Ready(gameData, charts)
    {
      if gameData.None? {
        return false;  // `this.gameData.assets` throws
      }
      ok := BuildCharts(gameData.value.assets);
      SetupKeepsSession(old(State()), State());
    }

    /** The loop of `setupUI` over the assets. */
    method BuildCharts(assets: seq<AssetData>) returns (ok: bool)
      modifies this`charts
      ensures charts == SetupCharts(old(charts), assets)
      ensures ok == (LoadablePrefix(assets) == |assets|)
    {
      ok := true;
      var i := 0;
      while i < |assets|
        invariant 0 <= i <= |assets|
        invariant SetupCharts(charts, assets[i..]) == SetupCharts(old(charts), assets)
        invariant forall j :: 0 <= j < i ==> assets[j].prices != []
        invariant ok
        modifies this`charts
      {
        var a := assets[i];
        SetupChartsStep(charts, assets, i);
        if a.prices == [] {
          charts := charts[a.symbol := EmptyChart()];
          ok := false;  // `asset.prices[0].price` throws
          break;
        }
        AddChart(a.symbol, a.prices[0].price);
        i := i + 1;
      }
      LoadablePrefixAt(assets, i);
    }

    /** One asset of `setupUI`: a new, empty chart, then the first price plotted at tick 0. */
    method AddChart(symbol: string, price: Cents)
      modifies this`charts
      ensures charts == old(charts)[symbol := Plot(EmptyChart(), price, 0)]
    {
      charts := charts[symbol := EmptyChart()];
      UpdateChartData(symbol, price, 0);
    }

    /** `startGame`: the session runs and the three interval handles (timer, prices, events)
        are recorded. It is reached only once `setupUI` has succeeded. */
    method StartGame(timerId: nat, priceId: nat, eventId: nat)
      requires Valid() && Ready(gameData, charts)
      modifies this`isRunning, this`intervals
      ensures Valid() && isRunning
      ensures intervals == old(intervals) + [timerId, priceId, eventId]
    {
      isRunning := true;
      intervals := intervals + [timerId];
      intervals := intervals + [priceId];
      intervals := intervals + [eventId];
    }

    /** `init`: load, set up the charts and, when that succeeded, start; the leaderboard fetch at
        the end is not modelled. Only the constructor and `restartGame` lead here, both with no game
        data. */
    method Init(response: Option<GameData>, timerId: nat, priceId: nat, eventId: nat) returns (started: bool)
      requires Valid() && gameData.None?
      modifies this`gameData, this`balance, this`currentPrices, this`buyMarkers, this`charts, this`isRunning, this`intervals
      ensures Valid()
      ensures response.Some? ==>
        && gameData == response && balance == response.value.startBalance
        && currentPrices == SeedPrices(old(currentPrices), response.value.assets)
        && buyMarkers == SeedMarkers(old(buyMarkers), response.value.assets)
      ensures response.None? ==>
        gameData == old(gameData) && balance == old(balance) && currentPrices == old(currentPrices) && buyMarkers == old(buyMarkers)
      ensures charts == if gameData.Some? then SetupCharts(old(charts), gameData.value.assets) else old(charts)
      ensures started <==> gameData.Some? && LoadablePrefix(gameData.value.assets) == |gameData.value.assets|
      ensures isRunning == started
      ensures intervals == if started then old(intervals) + [timerId, priceId, eventId] else old(intervals)
    {
      var _ := LoadGameData(response);
      started := SetupUI();
      if started {
        StartGame(timerId, priceId, eventId);
      }
    }

    // -------------------------------------------------------------------------------------
    // Charts and markers

    /** `updateChartData`: push the point; past `MaxChartPoints` shift the oldest one out and keep
        only the markers at or after the new first label. Without a chart, nothing. */
    method UpdateChartData(symbol: string, price: Cents, index: int)
      modifies this`charts
      ensures charts == if symbol in old(charts) then old(charts)[symbol := Plot(old(charts)[symbol], price, index)] else old(charts)
    {
      if symbol !in charts {
        return;
      }
      var c := charts[symbol];
      var labels, prices, buys, sells := c.labels + [index], c.prices + [price], c.buys, c.sells;
      if |labels| > MaxChartPoints {
        labels, prices := labels[1..], prices[1..];
        buys := Filter(buys, From(labels[0]));
        sells := Filter(sells, From(labels[0]));
      }
      charts := charts[symbol := ChartData(labels, prices, buys, sells)];
    }

    /** `addBuyMarker`: the buy point goes onto the chart and into the stored list; without a
        chart, nothing. */
    method AddBuyMarker(symbol: string, price: Cents, index: int)
      requires symbol in charts ==> symbol in buyMarkers
      modifies this`charts, this`buyMarkers
      ensures charts == ChartsWithBuy(old(charts), symbol, price, index)
      ensures buyMarkers == MarkersWithBuy(old(charts), old(buyMarkers), symbol, price, index)
    {
      if symbol !in charts {
        return;
      }
      charts := charts[symbol := AddBuy(charts[symbol], price, index)];
      buyMarkers := buyMarkers[symbol := buyMarkers[symbol] + [Point(index, price)]];
    }

    /** `addSellMarker`: the sell point goes onto the chart; without a chart, nothing. */
    method AddSellMarker(symbol: string, price: Cents, index: int)
      modifies this`charts
      ensures charts == ChartsWithSell(old(charts), symbol, price, index)
    {
      if symbol !in charts {
        return;
      }
      charts := charts[symbol := AddSell(charts[symbol], price, index)];
    }

    /** `removeBuyMarker`: splice the closest tolerant buy point off the chart and, only then,
        filter the stored list with its own nearness rule. */
    method RemoveBuyMarker(symbol: string, price: Cents, index: int)
      requires symbol in charts ==> symbol in buyMarkers
      modifies this`charts, this`buyMarkers
      ensures charts == ChartsWithoutBuy(old(charts), symbol, price, index)
      ensures buyMarkers == MarkersWithoutBuy(old(charts), old(buyMarkers), symbol, price, index)
    {
      if symbol !in charts {
        return;
      }
      var c := charts[symbol];
      if |c.buys| > 0 {
        var closest := FindClosestBuy(c.buys, price, index);
        if closest != -1 {
          charts := charts[symbol := DropBuy(c, closest)];
          buyMarkers := buyMarkers[symbol := Filter(buyMarkers[symbol], Unmatched(price, index))];
        }
      }
    }

    // -------------------------------------------------------------------------------------
    // Ticks

    /** `updateTimer`: one second off the countdown, or, once it is at zero, `endGame`. */
    method UpdateTimer() returns (ended: bool, settlement: Option<Settlement>)
      requires Valid()
      modifies this`timeLeft, this`isRunning, this`intervals
      ensures Valid()
      ensures ended <==> old(timeLeft) <= 0
      ensures ended ==> timeLeft == old(timeLeft) && !isRunning && intervals == [] && settlement == SettlementOf()
      ensures !ended ==>
        && timeLeft == old(timeLeft) - 1 && settlement == None
        && isRunning == old(isRunning) && intervals == old(intervals)
    {
      if timeLeft <= 0 {
        settlement := EndGame();
        return true, settlement;
      }
      timeLeft := timeLeft - 1;
      return false, None;
    }

    /** `updatePrices`: when running and not past the duration, every asset with a price at the
        replay position sets it as current and plots it; then the position advances. */
    method UpdatePrices()
      requires Valid()
      modifies this`currentPrices, this`charts, this`priceIndex
      ensures Valid()
      ensures !old(isRunning) || old(priceIndex) >= old(gameData).value.duration ==> unchanged(this)
      ensures old(isRunning) && old(priceIndex) < old(gameData).value.duration ==>
        && priceIndex == old(priceIndex) + 1
        && currentPrices == TickPrices(old(currentPrices), gameData.value.assets, old(priceIndex))
        && charts == TickCharts(old(charts), gameData.value.assets, old(priceIndex))
    {
      if !isRunning || priceIndex >= gameData.value.duration {
        return;
      }
      PlotTick(gameData.value.assets, priceIndex);
      priceIndex := priceIndex + 1;
      TickKeepsSession(old(State()), State());
    }

    /** The loop of `updatePrices` over the assets, at replay position `idx`. */
    method PlotTick(assets: seq<AssetData>, idx: nat)
      modifies this`currentPrices, this`charts
      ensures currentPrices == TickPrices(old(currentPrices), assets, idx)
      ensures charts == TickCharts(old(charts), assets, idx)
    {
      var i := 0;
      while i < |assets|
        invariant 0 <= i <= |assets|
        invariant TickPrices(currentPrices, assets[i..], idx) == TickPrices(old(currentPrices), assets, idx)
        invariant TickCharts(charts, assets[i..], idx) == TickCharts(old(charts), assets, idx)
        modifies this`currentPrices, this`charts
      {
        var a := assets[i];
        if HasPrice(a, idx) {
          var price := a.prices[idx].price;
          currentPrices := currentPrices[a.symbol := price];
          UpdateChartData(a.symbol, price, idx);
        }
        assert assets[i..][1..] == assets[i + 1..];
        i := i + 1;
      }
    }

    // -------------------------------------------------------------------------------------
    // Trades

    /** The ledger lines of `buy`: pay the current price, add one unit (a new symbol joins the
        end of the key order) and count the trade. */
    method BookPurchase(symbol: string)
      requires CanBuy(AccountView(), currentPrices, symbol)
      modifies this`balance, this`portfolio, this`holdingOrder, this`trades
      ensures AccountView() == Ledger.Buy(old(AccountView()), currentPrices, symbol)
    {
      balance := balance - currentPrices[symbol];
      if symbol !in portfolio {
        holdingOrder := holdingOrder + [symbol];
      }
      portfolio := portfolio[symbol := Held(portfolio, symbol) + 1];
      trades := trades + 1;
    }

    /** `buy`: with the symbol priced and affordable, one unit is bought at the current price
        (a new symbol joins the end of the key order), marked on the chart at the replay position
        and announced in the feed. The running flag is not consulted. */
    method Buy(symbol: string)
      requires Valid()
      modifies this`balance, this`portfolio, this`holdingOrder, this`trades, this`charts, this`buyMarkers, this`events
      ensures Valid()
      ensures AccountView() == Ledger.Buy(old(AccountView()), currentPrices, symbol)
      ensures CanBuy(old(AccountView()), currentPrices, symbol) ==>
        && charts == ChartsWithBuy(old(charts), symbol, currentPrices[symbol], priceIndex)
        && buyMarkers == MarkersWithBuy(old(charts), old(buyMarkers), symbol, currentPrices[symbol], priceIndex)
        && events == Posted(old(events), FeedEntry(Bought(symbol, currentPrices[symbol]), Neutral))
      ensures !CanBuy(old(AccountView()), currentPrices, symbol) ==>
        charts == old(charts) && buyMarkers == old(buyMarkers) && events == old(events)
    {
      if symbol in currentPrices && balance >= currentPrices[symbol] {
        var price := currentPrices[symbol];
        BookPurchase(symbol);
        MarkPurchase(symbol, price, priceIndex);
        BuyKeepsSession(old(State()), State(), symbol);
      }
    }

    /** The chart and feed lines of `buy`: the buy point goes on and the purchase is announced. */
    method MarkPurchase(symbol: string, price: Cents, index: int)
      requires symbol in charts ==> symbol in buyMarkers
      modifies this`charts, this`buyMarkers, this`events
      ensures charts == ChartsWithBuy(old(charts), symbol, price, index)
      ensures buyMarkers == MarkersWithBuy(old(charts), old(buyMarkers), symbol, price, index)
      ensures events == Posted(old(events), FeedEntry(Bought(symbol, price), Neutral))
    {
      AddBuyMarker(symbol, price, index);
      AddEvent(FeedEntry(Bought(symbol, price), Neutral));
    }

    /** The chart and feed lines of `sell`: the sell point goes on, then the closest buy point
        comes off, then the sale is announced. */
    method MarkSale(symbol: string, price: Cents, index: int)
      requires symbol in charts ==> symbol in buyMarkers
      modifies this`charts, this`buyMarkers, this`events
      ensures charts == ChartsWithoutBuy(ChartsWithSell(old(charts), symbol, price, index), symbol, price, index)
      ensures buyMarkers == MarkersWithoutBuy(ChartsWithSell(old(charts), symbol, price, index), old(buyMarkers), symbol, price, index)
      ensures events == Posted(old(events), FeedEntry(Sold(symbol, price), Neutral))
    {
      AddSellMarker(symbol, price, index);
      RemoveBuyMarker(symbol, price, index);
      AddEvent(FeedEntry(Sold(symbol, price), Neutral));
    }

    /** The ledger lines of `sell`: receive the current price, take one unit off (the key stays,
        also at zero) and count the trade. */
    method BookSale(symbol: string)
      requires CanSell(AccountView(), symbol) && symbol in currentPrices
      modifies this`balance, this`portfolio, this`trades
      ensures AccountView() == Ledger.Sell(old(AccountView()), currentPrices, symbol)
    {
      balance := balance + currentPrices[symbol];
      portfolio := portfolio[symbol := portfolio[symbol] - 1];
      trades := trades + 1;
    }

    /** `sell`: with a positive holding, one unit is sold at the current price, marked on the
        chart, the closest matching buy marker is removed, and the sale is announced. */
    method Sell(symbol: string)
      requires Valid()
      modifies this`balance, this`portfolio, this`trades, this`charts, this`buyMarkers, this`events
      ensures Valid()
      ensures AccountView() == Ledger.Sell(old(AccountView()), currentPrices, symbol)
      ensures CanSell(old(AccountView()), symbol) ==>
        var price := currentPrices[symbol];
        var marked := ChartsWithSell(old(charts), symbol, price, priceIndex);
        && charts == ChartsWithoutBuy(marked, symbol, price, priceIndex)
        && buyMarkers == MarkersWithoutBuy(marked, old(buyMarkers), symbol, price, priceIndex)
        && events == Posted(old(events), FeedEntry(Sold(symbol, price), Neutral))
      ensures !CanSell(old(AccountView()), symbol) ==>
        charts == old(charts) && buyMarkers == old(buyMarkers) && events == old(events)
    {
      if CanSell(AccountView(), symbol) {
        var price := currentPrices[symbol];
        BookSale(symbol);
        MarkSale(symbol, price, priceIndex);
        SellKeepsSession(old(State()), State(), symbol);
      }
    }

    // -------------------------------------------------------------------------------------
    // Valuation, feed and settlement

    /** The total `updatePortfolio` displays: cash plus every positive holding at its current
        price (an unpriced symbol counting as 0). */
    method UpdatePortfolio() returns (totalValue: Cents)
      ensures totalValue == balance + DisplayedWorth(holdingOrder, portfolio, currentPrices)
    {
      totalValue := balance;
      var i := 0;
      while i < |holdingOrder|
        invariant 0 <= i <= |holdingOrder|
        invariant totalValue + DisplayedWorth(holdingOrder[i..], portfolio, currentPrices)
               == balance + DisplayedWorth(holdingOrder, portfolio, currentPrices)
      {
        var symbol := holdingOrder[i];
        var amount := Held(portfolio, symbol);
        if amount > 0 {
          var price := PriceOr0(currentPrices, symbol);
          totalValue := totalValue + amount * price;
        }
        assert holdingOrder[i..][1..] == holdingOrder[i + 1..];
        i := i + 1;
      }
    }

    /** The `finalBalance` loop of `endGame`: cash plus every holding at its current price. */
    method SettledBalance() returns (finalBalance: Cents)
      ensures finalBalance == Value(AccountView(), currentPrices)
    {
      finalBalance := balance;
      var i := 0;
      while i < |holdingOrder|
        invariant 0 <= i <= |holdingOrder|
        invariant finalBalance + Worth(holdingOrder[i..], portfolio, currentPrices)
               == balance + Worth(holdingOrder, portfolio, currentPrices)
      {
        var symbol := holdingOrder[i];
        finalBalance := finalBalance + Held(portfolio, symbol) * PriceOr0(currentPrices, symbol);
        assert holdingOrder[i..][1..] == holdingOrder[i + 1..];
        i := i + 1;
      }
    }

    /** The settlement of the current state, when there is game data to compute the profit. */
    ghost function SettlementOf(): Option<Settlement>
      reads this
    {
      if gameData.None? then None
      else Some(Settlement(Value(AccountView(), currentPrices), Value(AccountView(), currentPrices) - gameData.value.startBalance))
    }

    /** `addEvent`: the entry goes first and entries beyond `FeedLength` drop off the far end. */
    method AddEvent(e: FeedEntry)
      modifies this`events
      ensures events == Posted(old(events), e)
    {
      events := [e] + events;
      while |events| > FeedLength
        invariant events == ([e] + old(events))[..|events|]
        invariant |events| >= if |old(events)| < FeedLength then |old(events)| + 1 else FeedLength
        decreases |events|
        modifies this`events
      {
        events := events[..|events| - 1];
      }
    }

    /** `generateEvent`: while running, post the market event `pick` draws; `pick` stands for
        `Math.floor(Math.random() * events.length)`. */
    method GenerateEvent(pick: nat)
      requires Valid() && pick < |MarketEvents|
      modifies this`events
      ensures Valid()
      ensures events == if isRunning then Posted(old(events), MarketEvents[pick]) else old(events)
    {
      if !isRunning {
        return;
      }
      AddEvent(MarketEvents[pick]);
      FeedKeepsSession(old(State()), State());
    }

    /** `endGame`: stop, clear every interval and settle; without game data the profit line
        throws a TypeError after the stop, and nothing is settled. */
    method EndGame() returns (settlement: Option<Settlement>)
      requires Valid()
      modifies this`isRunning, this`intervals
      ensures Valid() && !isRunning && intervals == []
      ensures settlement == SettlementOf()
    {
      isRunning, intervals := false, [];
      StopKeepsSession(old(State()), State());
      var finalBalance := SettledBalance();
      if gameData.None? {
        return None;  // `this.gameData.startBalance` throws
      }
      settlement := Some(Settlement(finalBalance, finalBalance - gameData.value.startBalance));
    }

    // -------------------------------------------------------------------------------------
    // Restart

    /** The reset part of `restartGame`: every interval cleared, the charts dropped, every field
        back to its constructor value and the feed emptied. */
    method Reset()
      modifies this
      ensures Initial()
    {
      intervals, charts := [], map[];
      ResetLedger();
      ResetRound();
    }

    /** The cash, holdings and game data lines of the reset. */
    method ResetLedger()
      modifies this`gameData, this`balance, this`portfolio, this`holdingOrder, this`trades
      ensures gameData == None && balance == DefaultBalance && portfolio == map[] && holdingOrder == [] && trades == 0
    {
      gameData, balance, portfolio, holdingOrder, trades := None, DefaultBalance, map[], [], 0;
    }

    /** The countdown, replay and feed lines of the reset. */
    method ResetRound()
      modifies this`timeLeft, this`isRunning, this`currentPrices, this`priceIndex, this`buyMarkers, this`events
      ensures timeLeft == RoundSeconds && !isRunning && currentPrices == map[] && priceIndex == 0
      ensures buyMarkers == map[] && events == []
    {
      timeLeft, isRunning, currentPrices, priceIndex, buyMarkers, events := RoundSeconds, false, map[], 0, map[], [];
    }

    /** `restartGame`: reset, then `init` again with the newly fetched game data. */
    method RestartGame(response: Option<GameData>, timerId: nat, priceId: nat, eventId: nat) returns (started: bool)
      modifies this
      ensures Valid()
      ensures portfolio == map[] && holdingOrder == [] && trades == 0 && timeLeft == RoundSeconds
      ensures priceIndex == 0 && events == [] && gameData == response
      ensures balance == if response.Some? then response.value.startBalance else DefaultBalance
      ensures currentPrices == if response.Some? then SeedPrices(map[], response.value.assets) else map[]
      ensures buyMarkers == if response.Some? then SeedMarkers(map[], response.value.assets) else map[]
      ensures charts == if response.Some? then SetupCharts(map[], response.value.assets) else map[]
      ensures started <==> response.Some? && LoadablePrefix(response.value.assets) == |response.value.assets|
      ensures isRunning == started
      ensures intervals == if started then [timerId, priceId, eventId] else []
    {
      Reset();
      InitialIsValid();
      started := Init(response, timerId, priceId, eventId);
    }
  }
}
