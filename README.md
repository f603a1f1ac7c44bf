# Crypto Rush — a Dafny model of the trading round and its HTTP rules

Crypto Rush is a browser game with a three-minute round. The server generates one price history
per configured asset and sends it to the client. The client replays these histories one point
per second. The player buys and sells single units at the current price, watches each asset's
chart with its buy and sell markers, and reads a five-entry event feed. When the countdown
expires, the round settles every holding at the current price. The player can then submit the
final balance to the leaderboard.

This project models two parts of that system:

- **`CryptoRushGame`** (`game.dfy`, with `ledger.dfy`, `charts.dfy` and `replay.dfy`). The client
  session is modelled as a class whose fields are the source's fields:
  - cash, holdings, the trade count and the price table;
  - the replay position, the countdown, the running flag and the interval handles;
  - each chart's data (labels, the price line, the buy and sell overlays);
  - the stored buy markers and the event feed.

  Every method states its new state exactly, in terms of value-level functions:
  - `Ledger.Buy` and `Ledger.Sell` for trades;
  - `Charts.Plot` for plotting a point and `Charts.ClosestBuy` for matching a sell to a buy;
  - `Replay.TickPrices`, `Replay.TickCharts`, `Replay.SeedPrices` and `Replay.SetupCharts` for
    ticks, loading and chart setup.

  The session's entry points keep one session invariant, `Game.SessionOk`. They are the
  constructor, `LoadGameData`, `SetupUI`, `StartGame`, `Init`, `UpdateTimer`, `UpdatePrices`,
  `Buy`, `Sell`, `GenerateEvent`, `EndGame` and `RestartGame`. The invariant says:
  - no holding is negative;
  - every held symbol is priced;
  - every chart keeps at most 60 points, none of them after the replay position;
  - once a chart has a point, all its markers lie inside its window;
  - the feed holds at most 5 entries;
  - prices, charts and stored marker lists exist only for symbols of the loaded assets, so
    without game data they are all empty;
  - the replay position is 0, or it has not passed the loaded duration;
  - a running session has a chart with a point for every asset.

  The helpers these entry points call (`UpdateChartData`, the marker methods, `AddEvent` and the
  ledger and reset pieces) state their exact effect but do not keep the invariant alone. For
  example, a marker added before a chart's first label would break the chart's shape.

  Lemmas about the functions show what the source promises:
  - a trade preserves cash plus holdings at the current prices;
  - the displayed total equals the settlement total while no holding is negative;
  - the sell scan picks the unique nearest tolerant buy marker, or none;
  - an eviction keeps exactly the markers inside the window;
  - loading seeds exactly the reachable symbols.
- **The HTTP handlers** (`handlers.dfy`). It models:
  - the leaderboard's `limit` selection, with `strconv.Atoi` on Go's 64-bit `int` and a proved
    parse-after-print round trip;
  - the order of checks in score submission: method, then body, then a username of 1 to 20
    UTF-8 bytes, and only then scoring and saving;
  - the leaderboard's server-error reply;
  - the assembly of the game data response.

Money is in integer cents. The server rounds every generated price to cents
(`internal/game/engine.go:47`). The modelled state holds only sums, differences and whole-number
multiples of such prices. The model computes these exactly, where the source's floating point
can be off by a rounding error. The starting $10000 is
`Game.DefaultBalance = 1_000_000`.

Four behaviours of the source are modelled as they are, not changed:
- **Sell removes buy markers by two different rules.**
  - The chart loses the single nearest buy point within 1 % of the sale price, and the earliest
    of equally near points wins (`Charts.ClosestBuySpec`).
  - The stored list loses every buy marker fewer than 5 ticks away and within 1 %. This can be
    none, one or several markers (`Charts.ForgetMatchedCanDropSeveral`).
  - The stored list is never displayed: `setupUI` reads it (game.js:160) and then creates each
    chart with empty overlays anyway.
- **Trades ignore the running flag.** `buy` checks only the price and the cash, and `sell` only
  the holding, so trades can still happen after the round ends.
- **Tick 0 is plotted twice.** `setupUI` plots each asset's first price at label 0. The first
  `updatePrices`, at replay position 0, plots the same price at label 0 again
  (`Replay.FirstTickRepeatsLabelZero`).
- **An asset without a first price stops the seeding, and the error does not propagate.**
  The TypeError at `asset.prices[0].price` leaves `loadGameData`'s loop, so the later assets get
  no price and no marker list. Its `catch` shows the "Failed to load game data" alert and
  returns normally (game.js:24-40, `Replay.LoadablePrefix`, `Replay.SeedSpec`). `setupUI` then
  creates that asset's chart empty and throws at the same expression, so `init` never starts the
  round (`Replay.SetupChartsKeys`, `Game.Ready`).

## Model

| member | source | states |
|---|---|---|
| Ledger.Buy | web/static/js/game.js:480-494 | with the symbol priced and affordable: cash drops by the price, the holding rises by one, the trade count rises by one and no other holding changes; otherwise the account is unchanged |
| Ledger.Sell | web/static/js/game.js:496-513 | with a positive holding: cash rises by the price, the holding falls by one, the trade count rises by one, and neither the key order nor any other holding changes; otherwise the account is unchanged |
| Ledger.BuyKeepsShape | web/static/js/game.js:480-494 | a buy keeps the key order listing each portfolio key once, keeps every holding non-negative and keeps every held symbol priced |
| Ledger.SellKeepsShape | web/static/js/game.js:496-513 | a sell keeps the key order, keeps every holding non-negative (the positive-holding guard) and keeps every held symbol priced |
| Ledger.TradesKeepHoldingsNonNegative | web/static/js/game.js:480-513 | any run of buys and sells leaves no negative holding |
| Ledger.BuyKeepsValue | web/static/js/game.js:480-494 | a buy preserves cash plus all holdings at the current prices |
| Ledger.SellKeepsValue | web/static/js/game.js:496-513 | a sell preserves cash plus all holdings at the current prices |
| Ledger.CanBuy | web/static/js/game.js:481-482 | the guard of `buy`, a known price covered by the cash; `Ledger.Buy` states that a buy books the trade exactly when it holds and changes nothing otherwise |
| Ledger.CanSell | web/static/js/game.js:497 | the guard of `sell`, a positive holding; `Ledger.Sell` states that a sell books the trade exactly when it holds and changes nothing otherwise |
| Ledger.Trades | web/static/js/game.js:480-513 | a run of clicks on buy and sell at one price table; `Ledger.TradesKeepHoldingsNonNegative` and `Ledger.TradesKeepValue` state that it keeps holdings non-negative and cash plus holdings constant |
| Ledger.TradesKeepValue | web/static/js/game.js:480-513 | any run of trades at one price table preserves cash plus holdings at those prices |
| Ledger.DisplayedWorthIsWorth | web/static/js/game.js:545-576 | when no holding is negative, the total `updatePortfolio` shows (positive holdings only) equals the sum `endGame` settles (all holdings) |
| Ledger.Worth | web/static/js/game.js:642-645 | the settlement sum of every holding at its current price (0 when unpriced); `Ledger.BuyKeepsValue`, `Ledger.SellKeepsValue` and `Ledger.TradesKeepValue` state that trades keep cash plus this sum |
| Ledger.DisplayedWorth | web/static/js/game.js:549-555 | the displayed sum over positive holdings only; `Ledger.DisplayedWorthIsWorth` equates it with `Ledger.Worth` while no holding is negative, and `Ledger.NegativeHoldingsMakeTotalsDiffer` shows they differ otherwise |
| Ledger.NegativeHoldingsMakeTotalsDiffer | web/static/js/game.js:551-555 | the positive-holdings filter matters: with a holding of -1 the two totals differ, so the equality needs the invariant |
| Charts.EmptyChart | web/static/js/game.js:162-200 | a new chart has no labels, no prices and no markers |
| Charts.Plot | web/static/js/game.js:346-368 | the point is appended; past 60 points exactly the oldest one is dropped, and labels and prices keep equal lengths within the window |
| Charts.PlotPrunesMarkers | web/static/js/game.js:354-365 | after an eviction no buy or sell marker lies left of the new first label, and the survivors are a subsequence of the old markers; without an eviction the markers are untouched |
| Charts.PlotKeepsChartOk | web/static/js/game.js:346-368 | plotting a tick no later than the replay position keeps a chart well shaped: at most 60 points, matching lengths, no label after the position, and markers inside the window |
| Charts.AddBuy | web/static/js/game.js:289-292 | the buy overlay gains exactly the point at the end; everything else is unchanged |
| Charts.AddSell | web/static/js/game.js:305-308 | the sell overlay gains exactly the point at the end; everything else is unchanged |
| Charts.AddMarkersKeepChartOk | web/static/js/game.js:284-311 | adding a marker at or after the replay position keeps the chart well shaped |
| Charts.DropBuy | web/static/js/game.js:333 | `splice(k, 1)`: the buy overlay loses exactly position k and keeps the rest in order |
| Charts.SpliceKeepsChartOk | web/static/js/game.js:332-333 | removing a buy point keeps the chart well shaped |
| Charts.WithinToleranceIsRelativeError | web/static/js/game.js:325 | the integer tolerance test is exactly `abs(y - price) / price < 0.01` in real arithmetic for a non-zero price |
| Charts.WithinTolerance | web/static/js/game.js:325 | the 1 % test on cents; `Charts.WithinToleranceIsRelativeError` states it is the source's relative-error test for every non-zero price |
| Charts.ClosestMatchIsUnique | web/static/js/game.js:320-329 | at most one marker is the closest tolerant match |
| Charts.ClosestBuy | web/static/js/game.js:320-329 | the scan's pick is -1 or a valid index into the buy overlay |
| Charts.ClosestBuySpec | web/static/js/game.js:320-329 | the scan finds nothing exactly when no marker is within tolerance; otherwise it finds the tolerant marker nearest to the sale tick, the earliest of equally near ones |
| Charts.FindClosestBuy | web/static/js/game.js:320-329 | the loop returns the specification's pick: -1 exactly when nothing is within tolerance, else the unique closest match |
| Charts.ForgetMatchedCharacterised | web/static/js/game.js:336-338 | the stored-marker filter keeps, in order, exactly the markers not both nearer than 5 ticks and within tolerance, with their multiplicities |
| Charts.Unmatched | web/static/js/game.js:336-338 | the filter's keep condition; `Charts.ForgetMatchedCharacterised` states that the filter keeps exactly the markers not both fewer than 5 ticks away and within 1 %, in order |
| Charts.ForgetMatchedCanDropSeveral | web/static/js/game.js:320-338 | two stored buys near a sale are both forgotten, while a chart holding the same two points loses only the nearer one |
| Replay.TickPricesElsewhere | web/static/js/game.js:435-439 | a symbol with no price at this tick keeps its entry in the price table, or stays absent |
| Replay.HasPrice | web/static/js/game.js:436-437 | the `?.price !== undefined` test; `Replay.TickPricesAt`, `Replay.TickPricesElsewhere` and the chart lemmas state that exactly the assets passing it are written |
| Replay.TickPrices | web/static/js/game.js:435-439 | the price table after one tick; `Replay.TickPricesSpec` and `Replay.TickPricesKeys` state its exact keys and values |
| Replay.TickPricesAt | web/static/js/game.js:435-439 | with distinct symbols, an asset priced at this tick has exactly that price afterwards |
| Replay.TickPricesSpec | web/static/js/game.js:435-439 | a tick sets every asset priced at the position to its price and leaves every other symbol as it was |
| Replay.TickPricesKeys | web/static/js/game.js:435-439 | a tick adds only asset symbols to the price table and removes none |
| Replay.TickChartsElsewhere | web/static/js/game.js:435-456 | a symbol with no price at this tick keeps its chart, or stays without one |
| Replay.TickCharts | web/static/js/game.js:435-456 | the charts after one tick; `Replay.TickChartsSpec` states the exact result and `Replay.TickChartsKeepShape` the kept shape |
| Replay.TickChartsAt | web/static/js/game.js:435-456 | with distinct symbols, the chart of an asset priced at this tick becomes exactly `Plot` of the old chart with that price at the replay position |
| Replay.TickChartsSpec | web/static/js/game.js:435-456 | a tick plots each priced asset's price onto its existing chart and leaves every other chart as it was |
| Replay.TickChartsKeepShape | web/static/js/game.js:435-456 | a tick keeps the set of charts, keeps each chart well shaped one position later and keeps every non-empty chart non-empty |
| Replay.LoadablePrefix | web/static/js/game.js:32-35 | the assets reached before the first TypeError: all of them have a first price, and the next one, if any, has none |
| Replay.SeedPricesElsewhere | web/static/js/game.js:32-35 | a symbol of no asset keeps its price, or stays unpriced, through loading |
| Replay.SeedPrices | web/static/js/game.js:32-35 | the price seeding; `Replay.SeedSpec` states its exact keys and values, up to the first asset without a price |
| Replay.SeedMarkers | web/static/js/game.js:32-35 | the marker seeding; `Replay.SeedKeys` states that exactly the reached symbols get an empty list |
| Replay.SeedPricesAt | web/static/js/game.js:32-35 | with distinct symbols, a reached asset's price is its first price |
| Replay.SeedKeys | web/static/js/game.js:32-35 | loading adds exactly the reachable symbols to the price table and the marker lists, gives each an empty marker list, and leaves every other symbol's entries as they were |
| Replay.SeedSpec | web/static/js/game.js:32-35 | loading gives each reachable symbol an empty marker list and, with distinct symbols, its first price; it adds exactly the reachable symbols and leaves every other symbol's entries as they were |
| Replay.LoadedSymbolsAreAssets | web/static/js/game.js:32-35 | the reached symbols, and the symbol of the asset where loading stops, are asset symbols |
| Replay.SetupChartsKeys | web/static/js/game.js:148-263 | setup creates a chart for every reachable symbol and for the asset where it stops, and for no other new symbol |
| Replay.SetupCharts | web/static/js/game.js:148-263 | the charts `setupUI` builds; `Replay.SetupChartsSpec`, `Replay.SetupChartsKeys`, `Replay.SetupChartsShaped` and `Replay.SetupChartsCover` state their values, keys, shape and coverage |
| Replay.SetupChartsShaped | web/static/js/game.js:148-263 | setup keeps every chart well shaped |
| Replay.SetupChartsCover | web/static/js/game.js:148-263 | when every asset has a first price, every asset gets a chart holding a point |
| Replay.SetupChartsKeep | web/static/js/game.js:148-263 | an existing non-empty chart stays non-empty through a full setup |
| Replay.SetupChartsElsewhere | web/static/js/game.js:148-263 | a symbol of no asset keeps its chart, or stays without one, through setup |
| Replay.SetupChartsAt | web/static/js/game.js:148-263 | with distinct symbols, a reached asset's chart is a new chart holding exactly its first price at tick 0, and the asset where setup stops has an empty chart |
| Replay.SetupChartsSpec | web/static/js/game.js:148-263 | with distinct symbols, setup gives every reached asset a new chart with exactly its first price at tick 0, the asset where it stops an empty chart, and leaves every other chart as it was |
| Replay.FirstTickRepeatsLabelZero | web/static/js/game.js:262 | after setup and the first tick at position 0, a reached asset's chart has labels `[0, 0]` and its first price twice |
| Game.Posted | web/static/js/game.js:592-603 | the feed after a post: the new entry first, then the newest old entries, at most 5 |
| Game.MarkersWithBuy | web/static/js/game.js:286-295 | a buy marker is stored only when the chart exists; the set of symbols with a marker list is unchanged |
| Game.ChartsWithBuy | web/static/js/game.js:284-292 | `addBuyMarker` on the charts; `Game.MarkersKeepShape` states that it keeps every chart shaped and the session ready |
| Game.ChartsWithSell | web/static/js/game.js:300-308 | `addSellMarker` on the charts; `Game.MarkersKeepShape` states the same for it |
| Game.MarkersWithoutBuy | web/static/js/game.js:332-338 | the stored list is filtered only when a chart point was removed; the set of symbols with a marker list is unchanged |
| Game.ChartsWithoutBuy | web/static/js/game.js:313-333 | `removeBuyMarker` on the charts; `Charts.ClosestBuySpec` fixes the point removed, and `Game.RemovalKeepsShape` states that shape and readiness are kept |
| Game.MarkersKeepShape | web/static/js/game.js:284-311 | adding a buy or sell marker at the replay position keeps every chart well shaped and keeps readiness |
| Game.RemovalKeepsShape | web/static/js/game.js:313-343 | removing a buy marker keeps every chart well shaped and keeps readiness |
| Game.SessionSymbols | web/static/js/game.js:32-35 | in every session satisfying the invariant, every held symbol is an asset symbol; without game data the holdings, prices, charts and markers are empty, the replay is at 0 and the session is stopped |
| Game.TickKeepsShape | web/static/js/game.js:430-460 | a tick of a ready session adds only asset symbols to the prices and keeps the set of charts, marker coverage and readiness, with the charts well shaped one position later |
| Game.LoadKeepsSession | web/static/js/game.js:24-40 | loading game data into a session that has none keeps the session invariant |
| Game.SetupKeepsSession | web/static/js/game.js:145-282 | setting up the charts keeps the invariant and, with every first price present, makes the session ready |
| Game.StopKeepsSession | web/static/js/game.js:634-639 | stopping and clearing the intervals keeps the invariant |
| Game.TickKeepsSession | web/static/js/game.js:430-460 | a tick of a running session before the end of the duration keeps the invariant |
| Game.FeedKeepsSession | web/static/js/game.js:592-603 | posting to the feed keeps the invariant |
| Game.BuyKeepsSession | web/static/js/game.js:480-494 | a buy with its marker and feed entry keeps the invariant |
| Game.SellKeepsSession | web/static/js/game.js:496-513 | a sell with its sell marker, its buy-marker removal and its feed entry keeps the invariant |
| Game.CryptoRushGame.InitialIsValid | web/static/js/game.js:2-15 | the constructor's field values satisfy the session invariant |
| Game.CryptoRushGame.constructor | web/static/js/game.js:2-15 | every field starts at its constructor value: no game data, $10000, nothing held, 180 seconds, stopped, no charts, prices, intervals, markers or feed |
| Game.CryptoRushGame.LoadGameData | web/static/js/game.js:24-40 | on a session without game data: a failed fetch changes nothing; otherwise the game data and start balance are taken, and prices and markers are seeded asset by asset up to the first asset without a first price; success means every asset was reached |
| Game.CryptoRushGame.SetupUI | web/static/js/game.js:145-282 | without game data it fails and changes nothing; otherwise the charts are those of `SetupCharts`, success means every asset has a first price, and success makes the session ready |
| Game.CryptoRushGame.BuildCharts | web/static/js/game.js:148-263 | the chart loop builds exactly `SetupCharts` of the assets, and reports whether every asset had a first price |
| Game.CryptoRushGame.AddChart | web/static/js/game.js:162-262 | one asset's chart is replaced by a new chart holding its first price at tick 0 |
| Game.CryptoRushGame.StartGame | web/static/js/game.js:370-384 | the session runs, with the timer, price and event handles appended in that order |
| Game.CryptoRushGame.Init | web/static/js/game.js:17-22 | on a session without game data: load, then set up, then start only when setup succeeded; the resulting fields are stated for the fetched and the failed case |
| Game.CryptoRushGame.UpdateChartData | web/static/js/game.js:346-368 | an existing chart becomes `Plot` of itself; without a chart nothing changes |
| Game.CryptoRushGame.AddBuyMarker | web/static/js/game.js:284-298 | with a chart, the point goes onto its buy overlay and into the stored list; otherwise nothing changes |
| Game.CryptoRushGame.AddSellMarker | web/static/js/game.js:300-311 | with a chart, the point goes onto its sell overlay; otherwise nothing changes |
| Game.CryptoRushGame.RemoveBuyMarker | web/static/js/game.js:313-343 | the closest tolerant buy point is spliced out and only then is the stored list filtered; with no chart or no match nothing changes |
| Game.CryptoRushGame.UpdateTimer | web/static/js/game.js:386-397 | at zero it ends the round and settles, leaving the countdown at zero; otherwise the countdown falls by one and nothing else changes |
| Game.CryptoRushGame.UpdatePrices | web/static/js/game.js:430-460 | stopped or past the duration, nothing changes; otherwise the tick's prices and points are applied and the position advances by one |
| Game.CryptoRushGame.PlotTick | web/static/js/game.js:435-456 | the loop over the assets produces exactly the tick's price table and charts |
| Game.CryptoRushGame.BookPurchase | web/static/js/game.js:483-485 | the ledger becomes `Ledger.Buy` of the old ledger |
| Game.CryptoRushGame.Buy | web/static/js/game.js:480-494 | the ledger becomes `Ledger.Buy`; a successful buy marks the chart at the replay position, stores the marker and posts "Bought"; a refused buy changes nothing else |
| Game.CryptoRushGame.MarkPurchase | web/static/js/game.js:488-492 | the buy marker goes onto the chart and into the stored list, and "Bought" is posted |
| Game.CryptoRushGame.MarkSale | web/static/js/game.js:504-511 | the sell marker goes on first, then the buy marker matched against the updated charts comes off, then "Sold" is posted |
| Game.CryptoRushGame.BookSale | web/static/js/game.js:498-501 | the ledger becomes `Ledger.Sell` of the old ledger |
| Game.CryptoRushGame.Sell | web/static/js/game.js:496-513 | the ledger becomes `Ledger.Sell`; a successful sale marks the chart, removes the matched buy marker and posts "Sold"; a refused sale changes nothing else |
| Game.CryptoRushGame.UpdatePortfolio | web/static/js/game.js:545-576 | the displayed total is the cash plus every positive holding at its current price, or 0 for an unpriced symbol |
| Game.CryptoRushGame.SettledBalance | web/static/js/game.js:641-645 | the final balance is the cash plus every holding at its current price, or 0 for an unpriced symbol |
| Game.CryptoRushGame.AddEvent | web/static/js/game.js:592-603 | the feed becomes `Posted` of the old feed and the entry |
| Game.CryptoRushGame.GenerateEvent | web/static/js/game.js:578-590 | a running session posts the drawn market event; a stopped one changes nothing |
| Game.CryptoRushGame.EndGame | web/static/js/game.js:634-670 | the session stops with no interval; the settlement is the final balance and its profit over the start balance, or nothing without game data |
| Game.CryptoRushGame.Reset | web/static/js/game.js:726-750 | every field is back at its constructor value, and the feed is emptied |
| Game.CryptoRushGame.ResetLedger | web/static/js/game.js:736-742 | game data, cash, holdings and trade count are reset |
| Game.CryptoRushGame.ResetRound | web/static/js/game.js:739-750 | countdown, running flag, prices, position, markers and feed are reset |
| Game.CryptoRushGame.RestartGame | web/static/js/game.js:726-771 | after a restart the state is that of a fresh session fed the new response: seeded prices, markers and charts, and running exactly when every asset has a first price |
| Handlers.Atoi | internal/handlers/handlers.go:96 | a parsed value lies in Go's 64-bit `int` range, and only strings that start with a digit or a sign parse |
| Handlers.AtoiRoundTrip | internal/handlers/handlers.go:96 | parsing the decimal form of any 64-bit `int` gives the number back |
| Handlers.AtoiExamples | internal/handlers/handlers.go:96 | leading zeros and `+` are accepted; an empty string, a bare sign, an exponent or a space is rejected |
| Handlers.LeaderboardLimit | internal/handlers/handlers.go:93-99 | the selected limit always lies between 1 and 100 |
| Handlers.LeaderboardLimitSpec | internal/handlers/handlers.go:93-99 | the limit is the parsed value exactly when it parses to 1..100, and 10 otherwise |
| Handlers.LeaderboardLimitHonoured | internal/handlers/handlers.go:93-99 | every limit from 1 to 100 written in decimal is taken as is |
| Handlers.GetLeaderboard | internal/handlers/handlers.go:92-110 | the reply is the 500 error exactly when the database fails for the selected limit; otherwise it is the database's rows for exactly the selected limit |
| Handlers.Utf8Length | internal/handlers/handlers.go:68 | `len` of a string counts 1 to 4 bytes per character and is 0 only for the empty string |
| Handlers.AsciiLength | internal/handlers/handlers.go:68 | an ASCII string is as many bytes long as it has characters |
| Handlers.UsernameBounds | internal/handlers/handlers.go:68-71 | 1 to 5 characters always pass, more than 20 never do, and an ASCII name passes exactly with 1 to 20 characters |
| Handlers.UsernameOk | internal/handlers/handlers.go:68 | the username rule; `Handlers.UsernameBounds` states its character bounds and `Handlers.SubmitScore` that a record is stored exactly when it holds |
| Handlers.SubmitScore | internal/handlers/handlers.go:54-90 | 405 for a non-POST, 400 "Invalid request" for an undecodable body, 400 "Invalid username" for an empty or over-20-byte name; a record is stored exactly when all three pass, with the engine's score, and the reply is 500 or the score according to the save |
| Handlers.MethodCheckedFirst | internal/handlers/handlers.go:55-58 | a non-POST request gets the same reply whatever its body and stores nothing |
| Handlers.StoredRecordsAreValid | internal/handlers/handlers.go:67-89 | every stored record has a 1-to-20-byte username, and a success reply reports the stored score of a saved record |
| Handlers.GetGameData | internal/handlers/handlers.go:31-48 | one asset entry per configured asset, in order, with its symbol, its name and the generator's history over the round; the configured start balance and duration |

## Left out

- Rendering is not modelled. This covers the DOM, the Chart.js objects and their `update` and
  `destroy` calls, the asset cards, the price-change colouring, the timer text, the result modal
  and the buttons. Only the chart data the game reads and writes is modelled.
- `fetch` and `async` are not modelled: the outcome of the game data fetch is a parameter of type
  `Option<GameData>`. A JSON body with missing fields is not modelled.
- The `setInterval` handles are parameters. `clearInterval` is modelled only as emptying
  `intervals`. The one-second and 25-second scheduling, and the interleaving of the callbacks,
  are not modelled.
- `Game.CryptoRushGame.GenerateEvent` does not model randomness: `Math.random()` is the parameter
  `pick`.
- Number formatting (`toFixed`) and `profitPercent` are not modelled. Feed messages carry the
  symbol and the price instead of the formatted text.
- Floating point is not modelled: money is integer cents and the tolerance test is exact. The
  model does not capture rounding error in long sums of prices.
- `loadLeaderboard`, `submitScore` (client) and `cleanup` are left out, because they are
  network calls or rendering.
- `Game.CryptoRushGame.Buy`, `Game.CryptoRushGame.Sell` and `Game.CryptoRushGame.UpdatePrices`
  leave out the calls to `updateBalance` and `updatePortfolio`, because those only rewrite the
  display. `Game.CryptoRushGame.UpdatePortfolio` models the total it computes.
- Key order: `holdingOrder` models the insertion order of `Object.entries`. JavaScript lists
  integer-like keys first; that is not modelled, because it changes neither sum.
- The modelled split of the source's methods has no counterpart in the source:
  - `BuildCharts`, `AddChart`, `PlotTick`, `BookPurchase`, `MarkPurchase`, `BookSale`,
    `MarkSale`, `ResetLedger` and `ResetRound` are pieces of the source methods;
  - `LoadGameData` assigns the game data and balance before seeding, as the source does. A
    TypeError in the middle leaves both assigned.
- `Game.CryptoRushGame.LoadGameData` and `Game.CryptoRushGame.Init` require a session without
  game data. The source reaches them only from the constructor and from `restartGame` after its
  reset, and both leave `gameData` null. A second load on top of loaded data is not modelled. It
  would leave prices and charts of symbols the new data does not list.
- `Replay.SeedSpec`, `Replay.TickPricesSpec`, `Replay.TickChartsSpec` and `Replay.SetupChartsSpec`
  state exact values only for distinct asset symbols. With a repeated symbol the later asset
  overwrites the earlier one. The functions compute that, but no lemma states it.
- `Game.CryptoRushGame.EndGame` does not model the result modal or the button handlers, and it
  returns its settlement instead of displaying it. Without game data the source throws after
  stopping; the model returns `None` then.
- `Game.CryptoRushGame.Reset` models `events-feed.innerHTML = ''` as emptying the feed.
  `maxChartPoints` is the constant `MaxChartPoints`, because nothing changes it.
- `internal/game/engine.go` is not part of this model. `GeneratePriceHistory` and
  `CalculateScore` are function parameters of `Handlers.GetGameData` and `Handlers.SubmitScore`.
- The database is not part of this model. `SaveScore` and `GetTopScores` are function parameters
  reporting success or the rows.
- The server configuration, `cmd/server/main.go` and logging are not part of this model.
- JSON encoding and decoding are not modelled. An undecodable body is `None`. Go encodes an empty
  configuration's nil asset slice as `null`, not `[]`, and the model does not capture that.
- `Handlers.SubmitScore` models the score as a real. Go's float64 arithmetic inside
  `CalculateScore` is not modelled.
- `Handlers.GetGameData` models only the response value. The `Content-Type` header and the
  writing of the response are not modelled.
- `Handlers.Atoi` models only Go's `strconv.Atoi` on a 64-bit platform. It does not model the
  kind of error returned, only its absence.
