/** The trade ledger of one game session: cash, holdings and the trade counter, and what
    `buy`, `sell` and the two portfolio valuations (`updatePortfolio`, `endGame`) do to them. */
module Ledger {
  import opened Models

  /** Cash, holdings and trade count. `order` lists the holding symbols in the order their
      keys were first created, which is the order in which `Object.entries` visits them. */
  datatype Account = Account(balance: Cents, portfolio: map<string, int>, order: seq<string>, trades: nat)

  /** The price table `currentPrices`: symbol to price in cents. */
  type Prices = map<string, Cents>

  /** `portfolio[s] || 0`: a missing key counts as no holding. */
  function Held(portfolio: map<string, int>, s: string): int {
    if s in portfolio then portfolio[s] else 0
  }

  /** `currentPrices[s] || 0`: an unpriced symbol is worth nothing. */
  function PriceOr0(prices: Prices, s: string): Cents {
    if s in prices then prices[s] else 0
  }

  /** No symbol twice in `order`. */
  ghost predicate Distinct(order: seq<string>) {
    forall i, j :: 0 <= i < j < |order| ==> order[i] != order[j]
  }

  /** The shape every reachable account has: `order` enumerates the portfolio keys once each,
      and no holding is negative. */
  ghost predicate WellFormed(a: Account) {
    && Distinct(a.order)
    && (forall s :: s in a.portfolio <==> s in a.order)
    && (forall s :: s in a.portfolio ==> a.portfolio[s] >= 0)
  }

  /** Every held symbol has a current price, which `sell` relies on. */
  ghost predicate Priced(a: Account, prices: Prices) {
    forall s :: s in a.portfolio ==> s in prices
  }

  /** `Σ amount · (currentPrices[symbol] || 0)` over the entries in `order`, the sum `endGame`
      adds to the cash balance at settlement. */
  function Worth(order: seq<string>, portfolio: map<string, int>, prices: Prices): int {
    if order == [] then 0
    else Held(portfolio, order[0]) * PriceOr0(prices, order[0]) + Worth(order[1..], portfolio, prices)
  }

  /** The sum `updatePortfolio` displays: like `Worth` but only over entries with `amount > 0`. */
  function DisplayedWorth(order: seq<string>, portfolio: map<string, int>, prices: Prices): int {
    if order == [] then 0
    else
      var amount := Held(portfolio, order[0]);
      (if amount > 0 then amount * PriceOr0(prices, order[0]) else 0)
        + DisplayedWorth(order[1..], portfolio, prices)
  }

  /** Cash plus holdings at the given prices: `finalBalance` of `endGame`. */
  function Value(a: Account, prices: Prices): int {
    a.balance + Worth(a.order, a.portfolio, prices)
  }

  /** The guard of `buy`: the symbol has a price and the cash covers it
      (`balance >= undefined` is false in JavaScript). */
  predicate CanBuy(a: Account, prices: Prices, s: string) {
    s in prices && a.balance >= prices[s]
  }

  /** The guard of `sell`: a truthy, positive holding. */
  predicate CanSell(a: Account, s: string) {
    s in a.portfolio && a.portfolio[s] > 0
  }

  /** `buy(symbol)` on the ledger: one unit bought at the current price, or nothing at all. */
  function Buy(a: Account, prices: Prices, s: string): (r: Account)
    ensures CanBuy(a, prices, s) ==>
      && r.balance == a.balance - prices[s]
      && Held(r.portfolio, s) == Held(a.portfolio, s) + 1
      && r.trades == a.trades + 1
    ensures !CanBuy(a, prices, s) ==> r == a
    ensures forall t :: t != s ==> Held(r.portfolio, t) == Held(a.portfolio, t)
  {
    if CanBuy(a, prices, s) then
      var price := prices[s];
      Account(a.balance - price, a.portfolio[s := Held(a.portfolio, s) + 1],
              if s in a.portfolio then a.order else a.order + [s], a.trades + 1)
    else a
  }

  /** `sell(symbol)` on the ledger: one unit sold at the current price, or nothing at all.
      The source reads `currentPrices[symbol]` without a check: a held symbol always has one. */
  function Sell(a: Account, prices: Prices, s: string): (r: Account)
    requires CanSell(a, s) ==> s in prices
    ensures CanSell(a, s) ==>
      && r.balance == a.balance + prices[s]
      && Held(r.portfolio, s) == Held(a.portfolio, s) - 1
      && r.trades == a.trades + 1
      && r.order == a.order
    ensures !CanSell(a, s) ==> r == a
    ensures forall t :: t != s ==> Held(r.portfolio, t) == Held(a.portfolio, t)
  {
    if CanSell(a, s) then
      Account(a.balance + prices[s], a.portfolio[s := a.portfolio[s] - 1], a.order, a.trades + 1)
    else a
  }

  /** A trade requested by the player. */
  datatype Action = BuyOne(symbol: string) | SellOne(symbol: string)

  /** A run of trades at one price table (the player clicking between two ticks). */
  function Trades(a: Account, prices: Prices, actions: seq<Action>): Account
    requires WellFormed(a) && Priced(a, prices)
    decreases |actions|
  {
    if actions == [] then a
    else
      BuyKeepsShape(a, prices, actions[0].symbol);
      SellKeepsShape(a, prices, actions[0].symbol);
      var next := match actions[0]
        case BuyOne(s) => Buy(a, prices, s)
        case SellOne(s) => Sell(a, prices, s);
      Trades(next, prices, actions[1..])
  }

  // ---------------------------------------------------------------------------------------
  // Invariants kept by the trades

  /** `buy` keeps the account well formed and every held symbol priced. */
  lemma BuyKeepsShape(a: Account, prices: Prices, s: string)
    requires WellFormed(a) && Priced(a, prices)
    ensures WellFormed(Buy(a, prices, s)) && Priced(Buy(a, prices, s), prices)
  {
    var r := Buy(a, prices, s);
    if CanBuy(a, prices, s) && s !in a.portfolio {
      forall i, j | 0 <= i < j < |r.order| ensures r.order[i] != r.order[j] {
        if j == |a.order| {
          assert r.order[j] == s;
          assert r.order[i] == a.order[i];
        }
      }
    }
  }

  /** `sell` keeps the account well formed (no holding goes negative) and priced. */
  lemma SellKeepsShape(a: Account, prices: Prices, s: string)
    requires WellFormed(a) && Priced(a, prices)
    ensures WellFormed(Sell(a, prices, s)) && Priced(Sell(a, prices, s), prices)
  {
  }

  /** Holdings never go negative, whatever the run of buys and sells. */
  lemma {:induction false} TradesKeepHoldingsNonNegative(a: Account, prices: Prices, actions: seq<Action>)
    requires WellFormed(a) && Priced(a, prices)
    ensures WellFormed(Trades(a, prices, actions))
    ensures forall s :: s in Trades(a, prices, actions).portfolio ==> Trades(a, prices, actions).portfolio[s] >= 0
    decreases |actions|
  {
    if actions != [] {
      BuyKeepsShape(a, prices, actions[0].symbol);
      SellKeepsShape(a, prices, actions[0].symbol);
      var next := match actions[0]
        case BuyOne(s) => Buy(a, prices, s)
        case SellOne(s) => Sell(a, prices, s);
      TradesKeepHoldingsNonNegative(next, prices, actions[1..]);
    }
  }

  // ---------------------------------------------------------------------------------------
  // Valuation

  /** Changing one holding that `order` lists once changes `Worth` by that holding's change
      times its price; a holding `order` does not list does not count at all. */
  lemma {:induction false} WorthUpdate(order: seq<string>, portfolio: map<string, int>, prices: Prices, s: string, v: int)
    requires Distinct(order)
    ensures Worth(order, portfolio[s := v], prices)
         == Worth(order, portfolio, prices)
            + (if s in order then v * PriceOr0(prices, s) - Held(portfolio, s) * PriceOr0(prices, s) else 0)
  {
    if order != [] {
      assert Distinct(order[1..]) by {
        forall i, j | 0 <= i < j < |order[1..]| ensures order[1..][i] != order[1..][j] {
          assert order[1..][i] == order[i + 1] && order[1..][j] == order[j + 1];
        }
      }
      WorthUpdate(order[1..], portfolio, prices, s, v);
      if order[0] == s {
        assert s !in order[1..] by {
          forall k | 0 <= k < |order[1..]| ensures order[1..][k] != s {
            assert order[1..][k] == order[k + 1];
          }
        }
      } else {
        assert (s in order) == (s in order[1..]);
      }
    }
  }

  /** Appending a symbol to `order` adds its holding's value to `Worth`. */
  lemma {:induction false} WorthAppend(order: seq<string>, portfolio: map<string, int>, prices: Prices, s: string)
    ensures Worth(order + [s], portfolio, prices)
         == Worth(order, portfolio, prices) + Held(portfolio, s) * PriceOr0(prices, s)
  {
    if order == [] {
      assert [] + [s] == [s];
    } else {
      assert (order + [s])[1..] == order[1..] + [s];
      WorthAppend(order[1..], portfolio, prices, s);
    }
  }

  /** Buying at the current price converts cash into holdings of exactly the same value. */
  lemma BuyKeepsValue(a: Account, prices: Prices, s: string)
    requires WellFormed(a)
    ensures Value(Buy(a, prices, s), prices) == Value(a, prices)
  {
    if CanBuy(a, prices, s) {
      var p := a.portfolio[s := Held(a.portfolio, s) + 1];
      WorthUpdate(a.order, a.portfolio, prices, s, Held(a.portfolio, s) + 1);
      if s !in a.portfolio {
        assert s !in a.order;
        WorthAppend(a.order, p, prices, s);
      }
    }
  }

  /** Selling at the current price converts holdings into cash of exactly the same value. */
  lemma SellKeepsValue(a: Account, prices: Prices, s: string)
    requires WellFormed(a) && Priced(a, prices)
    ensures Value(Sell(a, prices, s), prices) == Value(a, prices)
  {
    if CanSell(a, s) {
      WorthUpdate(a.order, a.portfolio, prices, s, a.portfolio[s] - 1);
      assert s in a.order;
    }
  }

  /** Between two ticks the total value (the settlement `endGame` would compute) stays put,
      however the player trades. */
  lemma {:induction false} TradesKeepValue(a: Account, prices: Prices, actions: seq<Action>)
    requires WellFormed(a) && Priced(a, prices)
    ensures Value(Trades(a, prices, actions), prices) == Value(a, prices)
    decreases |actions|
  {
    if actions != [] {
      BuyKeepsShape(a, prices, actions[0].symbol);
      SellKeepsShape(a, prices, actions[0].symbol);
      BuyKeepsValue(a, prices, actions[0].symbol);
      SellKeepsValue(a, prices, actions[0].symbol);
      var next := match actions[0]
        case BuyOne(s) => Buy(a, prices, s)
        case SellOne(s) => Sell(a, prices, s);
      TradesKeepValue(next, prices, actions[1..]);
    }
  }

  /** The displayed total (`updatePortfolio`, positive entries only) and the settlement sum
      (`endGame`, every entry) agree whenever no holding is negative. */
  lemma {:induction false} DisplayedWorthIsWorth(order: seq<string>, portfolio: map<string, int>, prices: Prices)
    requires forall s :: s in portfolio ==> portfolio[s] >= 0
    ensures DisplayedWorth(order, portfolio, prices) == Worth(order, portfolio, prices)
  {
    if order != [] {
      DisplayedWorthIsWorth(order[1..], portfolio, prices);
    }
  }

  /** The two totals do differ once a holding is negative: the displayed one skips it. */
  lemma NegativeHoldingsMakeTotalsDiffer()
    ensures DisplayedWorth(["BTC"], map["BTC" := -1], map["BTC" := 100]) == 0
    ensures Worth(["BTC"], map["BTC" := -1], map["BTC" := 100]) == -100
  {
    assert ["BTC"][1..] == [];
  }
}
