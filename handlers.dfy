/** The request rules of the HTTP handlers: which leaderboard size a query selects, which score
    submissions reach the database, and how the game data response is assembled. The price
    generator, the scoring formula and the database are parameters. */
module Handlers {
  import opened Wrappers
  import opened Models

  // ---------------------------------------------------------------------------------------
  // strconv.Atoi

  /** The range of Go's 64-bit `int`. */
  const MinInt: int := -0x8000_0000_0000_0000
  const MaxInt: int := 0x7FFF_FFFF_FFFF_FFFF

  predicate IsDigit(c: char) {
    '0' <= c <= '9'
  }

  predicate AllDigits(s: string) {
    forall i :: 0 <= i < |s| ==> IsDigit(s[i])
  }

  /** The number a string of decimal digits denotes, most significant digit first. */
  function DigitsValue(s: string): nat
    requires AllDigits(s)
  {
    if s == [] then 0 else DigitsValue(s[..|s| - 1]) * 10 + (s[|s| - 1] as int - '0' as int)
  }

  /** `strconv.Atoi`: an optional `+` or `-` and at least one decimal digit, denoting a number
      within the range of `int`; anything else (empty, other characters, out of range) fails. */
  function Atoi(s: string): (r: Option<int>)
    ensures r.Some? ==> MinInt <= r.value <= MaxInt
    ensures r.Some? ==> s != [] && (IsDigit(s[0]) || s[0] == '+' || s[0] == '-')
  {
    var unsigned := if s != [] && (s[0] == '+' || s[0] == '-') then s[1..] else s;
    if unsigned == [] || !AllDigits(unsigned) then None
    else
      var magnitude: int := DigitsValue(unsigned);
      var v := if s[0] == '-' then -magnitude else magnitude;
      if MinInt <= v <= MaxInt then Some(v) else None
  }

  /** The decimal digits of `n`, without leading zeros: the reference against which `Atoi` is
      checked. */
  function NatToDigits(n: nat): (s: string)
    ensures s != [] && AllDigits(s)
    decreases n
  {
    var last := [('0' as int + n % 10) as char];
    if n < 10 then last else NatToDigits(n / 10) + last
  }

  /** The canonical decimal form of `n`: a minus sign for negative numbers, then the digits. */
  function IntToDecimal(n: int): string {
    if n < 0 then "-" + NatToDigits(-n) else NatToDigits(n)
  }

  lemma {:induction false} DigitsRoundTrip(n: nat)
    ensures DigitsValue(NatToDigits(n)) == n
    decreases n
  {
    var s := NatToDigits(n);
    if n >= 10 {
      DigitsRoundTrip(n / 10);
      assert s[..|s| - 1] == NatToDigits(n / 10);
    }
  }

  /** Parsing the canonical form of any `int` gives the number back. */
  lemma AtoiRoundTrip(n: int)
    requires MinInt <= n <= MaxInt
    ensures Atoi(IntToDecimal(n)) == Some(n)
  {
    if n < 0 {
      DigitsRoundTrip(-n);
      assert IntToDecimal(n)[1..] == NatToDigits(-n);
    } else {
      DigitsRoundTrip(n);
    }
  }

  /** Leading zeros and a plus sign are accepted; a sign alone, an empty string or a non-digit
      is not. */
  lemma AtoiExamples()
    ensures Atoi("+007") == Some(7)
    ensures Atoi("-12") == Some(-12)
    ensures Atoi("") == None && Atoi("-") == None && Atoi("1e3") == None && Atoi(" 5") == None
  {
    assert DigitsValue("007") == 7 by {
      assert "007"[..2] == "00" && "00"[..1] == "0" && "0"[..0] == "";
    }
    assert DigitsValue("12") == 12 by {
      assert "12"[..1] == "1" && "1"[..0] == "";
    }
    assert !AllDigits("1e3") by { assert !IsDigit("1e3"[1]); }
    assert !AllDigits(" 5") by { assert !IsDigit(" 5"[0]); }
  }

  // ---------------------------------------------------------------------------------------
  // GetLeaderboard

  const DefaultLimit: int := 10
  const MaxLimit: int := 100

  /** The `limit` query parameter of `GET /api/leaderboard` (empty when absent): a parsed value
      from 1 to 100 is taken, anything else gives 10. */
  function LeaderboardLimit(limitStr: string): (limit: int)
    ensures 1 <= limit <= MaxLimit
  {
    if limitStr == "" then DefaultLimit
    else
      match Atoi(limitStr)
      case Some(l) => if l > 0 && l <= MaxLimit then l else DefaultLimit
      case None => DefaultLimit
  }

  /** The selected limit is the parsed value exactly when parsing succeeds with a value from 1 to
      100, and 10 otherwise; the separate test for an empty parameter changes nothing. */
  lemma LeaderboardLimitSpec(limitStr: string)
    ensures var p := Atoi(limitStr);
      LeaderboardLimit(limitStr) == if p.Some? && 1 <= p.value <= MaxLimit then p.value else DefaultLimit
  {
  }

  /** Every limit from 1 to 100, written in decimal, is honoured. */
  lemma LeaderboardLimitHonoured(n: int)
    requires 1 <= n <= MaxLimit
    ensures LeaderboardLimit(IntToDecimal(n)) == n
  {
    AtoiRoundTrip(n);
  }

  /** What `GET /api/leaderboard` answers: the top scores, or a server error. */
  datatype Board = Board(scores: seq<LeaderboardEntry>) | BoardError(status: int, message: string)

  /** `GET /api/leaderboard`. `topScores` is the database's answer for a limit, `None` when the
      query fails; it is asked for the selected limit, which `LeaderboardLimit` keeps in 1..100. */
  function GetLeaderboard(limitStr: string, topScores: int -> Option<seq<LeaderboardEntry>>): (b: Board)
    ensures b.BoardError? <==> topScores(LeaderboardLimit(limitStr)).None?
    ensures b.BoardError? ==> b == BoardError(500, "Failed to get leaderboard")
    ensures b.Board? ==> Some(b.scores) == topScores(LeaderboardLimit(limitStr))
  {
    match topScores(LeaderboardLimit(limitStr))
    case Some(scores) => Board(scores)
    case None => BoardError(500, "Failed to get leaderboard")
  }

  // ---------------------------------------------------------------------------------------
  // SubmitScore

  const MethodPost: string := "POST"
  const MaxUsernameBytes: nat := 20

  /** The number of bytes `c` takes in UTF-8. */
  function Utf8Width(c: char): (w: nat)
    ensures 1 <= w <= 4
  {
    if c as int < 0x80 then 1 else if c as int < 0x800 then 2 else if c as int < 0x1_0000 then 3 else 4
  }

  /** `len(s)` of a Go string: its length in UTF-8 bytes. */
  function Utf8Length(s: string): (n: nat)
    ensures |s| <= n <= 4 * |s|
    ensures n == 0 <==> s == []
  {
    if s == [] then 0 else Utf8Length(s[..|s| - 1]) + Utf8Width(s[|s| - 1])
  }

  /** An ASCII string takes one byte per character. */
  lemma {:induction false} AsciiLength(s: string)
    requires forall i :: 0 <= i < |s| ==> s[i] as int < 0x80
    ensures Utf8Length(s) == |s|
  {
    if s != [] {
      AsciiLength(s[..|s| - 1]);
    }
  }

  /** The username rule: not empty and at most 20 bytes. */
  predicate UsernameOk(username: string) {
    username != "" && Utf8Length(username) <= MaxUsernameBytes
  }

  /** The byte limit in characters: 1 to 5 characters always pass, more than 20 never do, and an
      ASCII name passes exactly when it has 1 to 20 characters. */
  lemma UsernameBounds(username: string)
    ensures 1 <= |username| <= MaxUsernameBytes / 4 ==> UsernameOk(username)
    ensures |username| > MaxUsernameBytes ==> !UsernameOk(username)
    ensures (forall i :: 0 <= i < |username| ==> username[i] as int < 0x80) ==>
      (UsernameOk(username) <==> 1 <= |username| <= MaxUsernameBytes)
  {
    if forall i :: 0 <= i < |username| ==> username[i] as int < 0x80 {
      AsciiLength(username);
    }
  }

  /** What the client gets back. */
  datatype Reply = HttpError(status: int, message: string) | Saved(score: real)

  /** The reply, and the record handed to the database, if any. */
  datatype Submission = Submission(reply: Reply, stored: Option<GameResult>)

  /** `POST /api/game/submit`. `body` is the decoded request body, `None` when it does not
      decode; `calculateScore` is the engine's score of a final balance, the configured start
      balance and a trade count; `saveSucceeds` tells whether the database accepted the record.
      The method is checked first, then the body, then the username; only then is the score
      computed and the record saved. */
  function SubmitScore(httpMethod: string, body: Option<GameResult>, startBalance: Cents,
                       calculateScore: (Cents, Cents, int) -> real, saveSucceeds: GameResult -> bool): (s: Submission)
    ensures httpMethod != MethodPost ==> s == Submission(HttpError(405, "Method not allowed"), None)
    ensures httpMethod == MethodPost && body.None? ==> s == Submission(HttpError(400, "Invalid request"), None)
    ensures httpMethod == MethodPost && body.Some? && !UsernameOk(body.value.username) ==>
      s == Submission(HttpError(400, "Invalid username"), None)
    ensures s.stored.Some? <==> httpMethod == MethodPost && body.Some? && UsernameOk(body.value.username)
    ensures s.stored.Some? ==>
      var r := body.value;
      && s.stored.value == r.(score := calculateScore(r.finalBalance, startBalance, r.tradesCount))
      && s.reply == if saveSucceeds(s.stored.value) then Saved(s.stored.value.score) else HttpError(500, "Failed to save score")
  {
    if httpMethod != MethodPost then Submission(HttpError(405, "Method not allowed"), None)
    else if body.None? then Submission(HttpError(400, "Invalid request"), None)
    else if !UsernameOk(body.value.username) then Submission(HttpError(400, "Invalid username"), None)
    else
      var r := body.value;
      var scored := r.(score := calculateScore(r.finalBalance, startBalance, r.tradesCount));
      Submission(if saveSucceeds(scored) then Saved(scored.score) else HttpError(500, "Failed to save score"), Some(scored))
  }

  /** The method is checked before the body is read: a request that is not a POST gets the same
      answer whatever its body, and never reaches the database. */
  lemma MethodCheckedFirst(httpMethod: string, b1: Option<GameResult>, b2: Option<GameResult>, startBalance: Cents,
                           calculateScore: (Cents, Cents, int) -> real, saveSucceeds: GameResult -> bool)
    requires httpMethod != MethodPost
    ensures SubmitScore(httpMethod, b1, startBalance, calculateScore, saveSucceeds)
         == SubmitScore(httpMethod, b2, startBalance, calculateScore, saveSucceeds)
    ensures SubmitScore(httpMethod, b1, startBalance, calculateScore, saveSucceeds).stored == None
  {
  }

  /** Every stored record has a username of 1 to 20 bytes and the engine's score, and a
      successful reply reports the stored score. */
  lemma StoredRecordsAreValid(httpMethod: string, body: Option<GameResult>, startBalance: Cents,
                              calculateScore: (Cents, Cents, int) -> real, saveSucceeds: GameResult -> bool)
    ensures var s := SubmitScore(httpMethod, body, startBalance, calculateScore, saveSucceeds);
      && (s.stored.Some? ==> 1 <= Utf8Length(s.stored.value.username) <= MaxUsernameBytes)
      && (s.reply.Saved? ==> s.stored.Some? && saveSucceeds(s.stored.value) && s.reply.score == s.stored.value.score)
  {
  }

  // ---------------------------------------------------------------------------------------
  // GetGameData

  /** `GET /api/game/start`: one asset entry per configured asset, in configured order, each
      with the configured symbol and name and the history `generate` draws for it over the
      round; the start balance and the duration are the configured ones. */
  method GetGameData(cfg: GameConfig, generate: (AssetConfig, int) -> seq<PricePoint>) returns (data: GameData)
    ensures data.startBalance == cfg.startBalance && data.duration == cfg.roundDuration
    ensures |data.assets| == |cfg.assets|
    ensures forall i :: 0 <= i < |cfg.assets| ==>
      data.assets[i] == AssetData(cfg.assets[i].symbol, cfg.assets[i].name, generate(cfg.assets[i], cfg.roundDuration))
  {
    var duration := cfg.roundDuration;
    var assetsData: seq<AssetData> := [];
    for i := 0 to |cfg.assets|
      invariant |assetsData| == i
      invariant forall j :: 0 <= j < i ==>
        assetsData[j] == AssetData(cfg.assets[j].symbol, cfg.assets[j].name, generate(cfg.assets[j], duration))
    {
      var asset := cfg.assets[i];
      var prices := generate(asset, duration);
      assetsData := assetsData + [AssetData(asset.symbol, asset.name, prices)];
    }
    data := GameData(cfg.startBalance, duration, assetsData);
  }
}
