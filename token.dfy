/**
 * The records the backend produces: the assembled token record, its risk
 * analysis and the pieces they are made of.
 */
module Token {
  import opened Optional

  /** The placeholder for a value no source provided. */
  const NoData := "No Data"
  /** The placeholder for a value whose lookup failed. */
  const ErrorText := "Error"

  /** The three risk levels, in increasing order of risk. */
  datatype Level = Good | Normal | Danger

  /**
   * One line of a risk analysis. The rules that quote a number carry the
   * number they quote; the text around it is not modelled.
   */
  datatype Reason =
    | MintAuthorityEnabled
    | ExtremeConcentration(top10: real)
    | HighConcentration(top10: real)
    | SingleHolderDominance(largest: real)
    | CreatorSold
    | LowCreatorHolding(shown: real)
    | LiquidityNotLocked
    | NotVerified
    | LimitedData
    | AnalysisFailed

  datatype RiskAnalysis = RiskAnalysis(score: int, level: Level, reasons: seq<Reason>)

  /** One of the top holders: an address and its share of the supply, in percent. */
  datatype Holder = Holder(address: string, percentage: real)

  /**
   * What is known of the creator's balance: nothing, a failure, that the
   * creator is no longer among the tracked holders, or the creator's share.
   */
  datatype CreatorBalance = BalanceNoData | BalanceError | Sold | Holds(percent: real)

  datatype Market = Market(name: string, address: string)

  /** The canonical token record returned to callers. */
  datatype TokenData = TokenData(
    address: string,
    name: string,
    symbol: string,
    avatarUrl: Option<string>,
    totalSupply: string,
    decimals: int,
    creator: string,
    creatorBalance: CreatorBalance,
    holders: string,
    mintAuthority: string,
    lpLocked: string,
    verified: string,
    categories: seq<string>,
    topHolders: seq<Holder>,
    markets: seq<Market>,
    riskAnalysis: RiskAnalysis)

  /**
   * The number a percentage shows once rendered with two decimals and read
   * back: rounding to the nearest hundredth, halves away from zero.
   */
  function TwoDecimals(p: real): (q: real)
    ensures p >= 0.0 ==> p - 0.005 < q <= p + 0.005
    ensures p < 0.0 ==> p - 0.005 <= q < p + 0.005
    ensures (q * 100.0).Floor as real == q * 100.0
  {
    var hundredths := if p >= 0.0 then (p * 100.0 + 0.5).Floor else -((-p * 100.0 + 0.5).Floor);
    assert (hundredths as real / 100.0) * 100.0 == hundredths as real;
    hundredths as real / 100.0
  }
}
