/** The record shapes exchanged between the server and the browser client.
    Money is in integer cents: the server rounds every price to cents before sending it. */
module Models {

  /** An amount of money in cents (negative amounts are representable, as in the source). */
  type Cents = int

  /** One point of a generated price history. */
  datatype PricePoint = PricePoint(timestamp: int, price: Cents)

  /** One tradable asset with its whole pre-generated history. */
  datatype AssetData = AssetData(symbol: string, name: string, prices: seq<PricePoint>)

  /** The body of `GET /api/game/start`, as the client decodes it. */
  datatype GameData = GameData(startBalance: Cents, duration: int, assets: seq<AssetData>)

  /** A score submission (`POST /api/game/submit`); `score` is filled in by the server. */
  datatype GameResult = GameResult(username: string, finalBalance: Cents, tradesCount: int, score: real)

  /** One leaderboard row; `createdAt` is the stored time as a number. */
  datatype LeaderboardEntry = LeaderboardEntry(id: int, username: string, score: real, trades: int, createdAt: int)

  /** A configured asset (the game section of the server configuration). */
  datatype AssetConfig = AssetConfig(name: string, symbol: string, startPrice: Cents, volatility: real)

  /** The game section of the server configuration. */
  datatype GameConfig = GameConfig(roundDuration: int, startBalance: Cents, assets: seq<AssetConfig>)
}
