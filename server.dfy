/**
 * The token endpoint: the contract-address check, the cache consulted
 * before any upstream work, the assembly of the token record from the
 * market payload, the token-detail payload, the resolved creator and the
 * holder count, and the fixed record returned when assembly fails.
 */
module Server {
  import opened Optional
  import opened Text
  import opened Token
  import Supply
  import Creator
  import Holders
  import Risk

  const AddressLength := 42
  const DefaultDecimals := 18

  /**
   * The market provider's payload, each field possibly absent; a failed
   * request is the empty payload.
   */
  datatype MarketData = MarketData(
    name: Option<string>,
    symbol: Option<string>,
    totalSupply: Option<string>,
    categories: Option<seq<string>>)

  const NoMarket := MarketData(None, None, None, None)

  /**
   * The `result` of the token-detail payload as the handler reads it through
   * optional chaining: a failed request or a missing result reads as every
   * field absent and `verified` false.
   */
  datatype DetailData = DetailData(
    name: Option<string>,
    symbol: Option<string>,
    logo: Option<string>,
    totalSupply: Option<string>,
    decimals: Option<int>,
    verified: bool)

  const NoDetail := DetailData(None, None, None, None, None, false)

  /**
   * What the four concurrent lookups resolve to: the two payloads, the
   * creator string and the paginator's holder count.
   */
  datatype Resolved = Resolved(
    market: MarketData,
    detail: DetailData,
    creator: string,
    counted: Holders.HolderCount)

  /**
   * The upstream answers for one request: the two payloads, the
   * block-explorer's contract-creation answer, the holders pages by index,
   * and whether assembling the record raises.
   */
  datatype Upstream = Upstream(
    market: MarketData,
    detail: DetailData,
    creatorLookup: Creator.CreationLookup,
    pages: nat -> Holders.PageResponse,
    assemblyFails: bool)

  datatype Response = BadRequest | Ok(data: TokenData)

  /** The answer of the holder-count endpoint. */
  datatype CountResponse = CountRejected | Counted(totalHolders: nat)

  /** A contract address is accepted when it has 42 characters and starts with "0x". */
  predicate ValidAddress(address: string): (ok: bool)
    ensures ok <==> |address| == AddressLength && address[..2] == "0x"
  {
    |address| == AddressLength && address[0] == '0' && address[1] == 'x'
  }

  /** `primary || secondary || fallback` on two optional strings. */
  function Fallback(primary: Option<string>, secondary: Option<string>, fallback: string): (r: string)
    ensures Truthy(primary) ==> r == primary.value
    ensures !Truthy(primary) && Truthy(secondary) ==> r == secondary.value
    ensures !Truthy(primary) && !Truthy(secondary) ==> r == fallback
  {
    var candidates := [primary, secondary];
    assert candidates[0] == primary && candidates[1] == secondary;
    FirstTruthy(candidates, fallback)
  }

  /** `detail.decimals || 18`: an absent or zero count becomes 18. */
  function DecimalsOf(detail: DetailData): (d: int)
    ensures d != 0
    ensures detail.decimals.Some? && detail.decimals.value != 0 ==> d == detail.decimals.value
    ensures d != DefaultDecimals ==> detail.decimals == Some(d)
  {
    match detail.decimals
    case Some(n) => if n != 0 then n else DefaultDecimals
    case None => DefaultDecimals
  }

  /** The holder count as shown: its decimal digits when positive, "Error" when zero. */
  function HoldersText(total: nat): (s: string)
    ensures s == ErrorText <==> total == 0
    ensures total > 0 ==> AllDigits(s) && Value(s) == total
    ensures total > 0 && |s| > 1 ==> s[0] != '0'
  {
    if total > 0 then
      var digits := NatToDigits(total);
      assert digits[0] != ErrorText[0] by { assert IsDigit(digits[0]); }
      digits
    else ErrorText
  }

  function VerifiedText(verified: bool): (s: string)
    ensures s == "Verified" <==> verified
    ensures !verified ==> s == "Unverified"
  {
    if verified then "Verified" else "Unverified"
  }

  /** What the concurrent lookups of a request resolve to. */
  function Resolve(up: Upstream): Resolved {
    Resolved(up.market, up.detail, Creator.CreatorAddress(up.creatorLookup), Holders.ExpectedCount(up.pages))
  }

  /** The raw supply: the detail's, else the market's, else "0". */
  function RawSupply(r: Resolved): string {
    Fallback(r.detail.totalSupply, r.market.totalSupply, "0")
  }

  /**
   * The record as assembled, before the risk analysis replaces its
   * placeholder; `RecordFields` states where each of its fields comes from.
   */
  function Draft(address: string, r: Resolved): (d: TokenData)
    ensures d.address == address
    ensures d.riskAnalysis == RiskAnalysis(0, Good, [])
  {
    var decimals := DecimalsOf(r.detail);
    TokenData(
      address,
      Fallback(r.detail.name, r.market.name, ErrorText),
      Fallback(r.detail.symbol, r.market.symbol, ErrorText),
      if Truthy(r.detail.logo) then r.detail.logo else None,
      Supply.FormatSupply(RawSupply(r), decimals),
      decimals,
      r.creator,
      Creator.GuardedCreatorBalance(r.creator, r.counted.topHolders),
      HoldersText(r.counted.totalHolders),
      NoData,
      NoData,
      VerifiedText(r.detail.verified),
      r.market.categories.GetOr([]),
      r.counted.topHolders,
      [],
      RiskAnalysis(0, Good, []))
  }

  /**
   * The record the handler returns and caches: the draft with its risk
   * analysis. The analysis stored is the analysis of the record itself, as
   * the scorer does not read the analysis field.
   */
  function TokenRecord(address: string, r: Resolved): (t: TokenData)
    ensures t.riskAnalysis == Risk.Analysis(t)
    ensures t == Draft(address, r).(riskAnalysis := t.riskAnalysis)
  {
    var draft := Draft(address, r);
    Risk.AnalysisIgnoresStoredAnalysis(draft, Risk.Analysis(draft));
    draft.(riskAnalysis := Risk.Analysis(draft))
  }

  /**
   * The fixed record returned when assembly raises: every looked-up field
   * reads "Error", mint authority and liquidity "No Data", nothing is listed,
   * and the analysis is a score of 0, Good, with the one failure reason.
   */
  function ErrorRecord(address: string): (t: TokenData)
    ensures t.address == address
    ensures t.name == ErrorText && t.symbol == ErrorText && t.totalSupply == ErrorText
    ensures t.creator == ErrorText && t.holders == ErrorText && t.verified == ErrorText
    ensures t.creatorBalance == BalanceError && t.avatarUrl == None && t.decimals == DefaultDecimals
    ensures t.mintAuthority == NoData && t.lpLocked == NoData
    ensures t.categories == [] && t.topHolders == [] && t.markets == []
    ensures Risk.WellFormed(t.riskAnalysis) && t.riskAnalysis.score == 0 && t.riskAnalysis.level == Good
    ensures t.riskAnalysis.reasons == [AnalysisFailed]
  {
    TokenData(address, ErrorText, ErrorText, None, ErrorText, DefaultDecimals, ErrorText, BalanceError,
              ErrorText, NoData, NoData, ErrorText, [], [], [], RiskAnalysis(0, Good, [AnalysisFailed]))
  }

  /**
   * The fields of an assembled record: name and symbol prefer the detail
   * payload, then the market payload, then "Error"; the logo is the
   * detail's when non-empty and absent otherwise; the holder count shows as
   * digits when positive and "Error" when zero; mint authority and
   * liquidity are "No Data"; the verification text follows the detail's
   * flag; categories are the market's, or none; decimals are the detail's
   * count or 18; the creator is the resolved one, and the creator's balance
   * is the one the classifier finds among the counted top holders.
   */
  lemma RecordFields(address: string, r: Resolved)
    ensures var t := TokenRecord(address, r);
      && t.address == address
      && (Truthy(r.detail.name) ==> t.name == r.detail.name.value)
      && (!Truthy(r.detail.name) && Truthy(r.market.name) ==> t.name == r.market.name.value)
      && (!Truthy(r.detail.name) && !Truthy(r.market.name) ==> t.name == ErrorText)
      && (Truthy(r.detail.symbol) ==> t.symbol == r.detail.symbol.value)
      && (!Truthy(r.detail.symbol) && Truthy(r.market.symbol) ==> t.symbol == r.market.symbol.value)
      && (!Truthy(r.detail.symbol) && !Truthy(r.market.symbol) ==> t.symbol == ErrorText)
      && (t.avatarUrl.Some? <==> Truthy(r.detail.logo))
      && (t.avatarUrl.Some? ==> t.avatarUrl == r.detail.logo)
      && (t.holders == ErrorText <==> r.counted.totalHolders == 0)
      && (r.counted.totalHolders > 0 ==> Value(t.holders) == r.counted.totalHolders)
      && t.mintAuthority == NoData && t.lpLocked == NoData
      && (t.verified == "Verified" <==> r.detail.verified)
      && (!r.detail.verified ==> t.verified == "Unverified")
      && t.holders == HoldersText(r.counted.totalHolders)
      && t.totalSupply == Supply.FormatSupply(RawSupply(r), t.decimals)
      && (r.market.categories.None? ==> t.categories == [])
      && (r.market.categories.Some? ==> t.categories == r.market.categories.value)
      && t.decimals == DecimalsOf(r.detail)
      && t.creator == r.creator
      && t.topHolders == r.counted.topHolders && t.markets == []
      && t.creatorBalance == Creator.FindCreatorBalance(r.creator, r.counted.topHolders)
  {
  }

  /**
   * The shown supply reads back, at the shown decimals, as the raw supply:
   * the detail's, else the market's, else zero.
   */
  lemma RecordSupplyRoundTrip(address: string, r: Resolved)
    requires AllDigits(RawSupply(r)) && DecimalsOf(r.detail) > 0
    ensures var t := TokenRecord(address, r);
      Supply.Unformat(t.totalSupply, t.decimals) == Some(Value(RawSupply(r)))
  {
    Supply.SupplyRoundTrip(RawSupply(r), DecimalsOf(r.detail));
  }

  /** With neither payload giving a supply the shown supply is "0". */
  lemma NoSupplyShowsZero(address: string, r: Resolved)
    requires !Truthy(r.detail.totalSupply) && !Truthy(r.market.totalSupply)
    requires DecimalsOf(r.detail) > 0
    ensures TokenRecord(address, r).totalSupply == "0"
  {
    assert RawSupply(r) == "0";
    assert Value("0") == 0;
  }

  /**
   * As mintAuthority and lpLocked are always "No Data", an assembled record
   * scores at least 40 and is never Good, and its reasons open with the mint
   * warning and close with the "limited data" advisory.
   */
  lemma AssembledNeverGood(address: string, r: Resolved)
    ensures var ra := TokenRecord(address, r).riskAnalysis;
      && ra.score >= 40 && ra.level != Good
      && |ra.reasons| >= 3
      && ra.reasons[0] == MintAuthorityEnabled
      && ra.reasons[|ra.reasons| - 1] == LimitedData
  {
    Risk.UnknownMintAndLiquidity(TokenRecord(address, r));
  }

  /**
   * The error record's fixed analysis (0, Good, one reason) is not what the
   * scorer would give that record: its "No Data" mint authority and
   * liquidity and "Error" verification alone score 50, Normal.
   */
  lemma ErrorRecordNotScored(address: string)
    ensures Risk.RawScore(ErrorRecord(address)) == 50
    ensures Risk.Analysis(ErrorRecord(address)).level == Normal
    ensures ErrorRecord(address).riskAnalysis != Risk.Analysis(ErrorRecord(address))
  {
    ErrorShapeScore(ErrorRecord(address));
  }

  /** Any record with the error record's scored fields scores 50. */
  lemma ErrorShapeScore(t: TokenData)
    requires t.mintAuthority == NoData && t.lpLocked == NoData && t.verified == ErrorText
    requires t.creatorBalance == BalanceError && t.topHolders == []
    ensures Risk.RawScore(t) == 50 && Risk.Analysis(t).level == Normal
  {
    Risk.NoDataLiquidityNotLocked(t);
    assert Risk.MintRule(t) == Some(MintAuthorityEnabled);
    assert Risk.ConcentrationRule(t) == None && Risk.DominanceRule(t) == None;
    assert Risk.CreatorRule(t) == None;
    assert Risk.VerificationRule(t) == Some(NotVerified);
  }

  /**
   * `GET /api/token/:contractAddress/holders/count`: rejects a malformed
   * address before any page is requested, and otherwise reports the
   * paginator's total (zero when a page raised).
   */
  method HoldersCount(address: string, pages: nat -> Holders.PageResponse)
    returns (response: CountResponse, ghost requested: seq<nat>)
    ensures response == CountRejected <==> !ValidAddress(address)
    ensures !ValidAddress(address) ==> requested == []
    ensures ValidAddress(address) ==> response == Counted(Holders.ExpectedCount(pages).totalHolders)
    ensures ValidAddress(address) ==> 1 <= |requested| <= Holders.LastPage(pages, 1)
  {
    requested := [];
    if !ValidAddress(address) {
      return CountRejected, requested;
    }
    var counted: Holders.HolderCount;
    counted, requested := Holders.TotalHoldersCount(pages);
    response := Counted(counted.totalHolders);
  }

  /**
   * The token endpoint's state: the records already analysed, by contract
   * address. Expiry and eviction are not modelled.
   */
  class TokenService {
    var cache: map<string, TokenData>

    /** Every cached record belongs to a valid address, under its own address, with a well-formed analysis. */
    predicate Valid()
      reads this
    {
      forall a | a in cache ::
        ValidAddress(a) && cache[a].address == a && Risk.WellFormed(cache[a].riskAnalysis)
    }

    constructor ()
      ensures cache == map[] && Valid()
    {
      cache := map[];
    }

    /**
     * `GET /api/token/:contractAddress`: rejects a malformed address, serves
     * a cached record, and otherwise assembles the record from the upstream
     * answers, scores it and caches it; when assembly raises, the error
     * record is returned and nothing is cached.
     */
    method AnalyzeToken(address: string, up: Upstream) returns (response: Response)
      requires Valid()
      modifies this
      ensures Valid()
      ensures response.Ok? ==> response.data.address == address && Risk.WellFormed(response.data.riskAnalysis)
      ensures !ValidAddress(address) ==> response == BadRequest && cache == old(cache)
      ensures ValidAddress(address) && address in old(cache) ==>
                response == Ok(old(cache)[address]) && cache == old(cache)
      ensures ValidAddress(address) && address !in old(cache) && up.assemblyFails ==>
                response == Ok(ErrorRecord(address)) && cache == old(cache)
      ensures ValidAddress(address) && address !in old(cache) && !up.assemblyFails ==>
                var t := TokenRecord(address, Resolve(up));
                response == Ok(t) && cache == old(cache)[address := t]
    {
      if !ValidAddress(address) {
        return BadRequest;
      }
      if address in cache {
        return Ok(cache[address]);
      }
      if up.assemblyFails {
        return Ok(ErrorRecord(address));
      }
      var counted: Holders.HolderCount;
      ghost var requested: seq<nat>;
      counted, requested := Holders.TotalHoldersCount(up.pages);
      var creator := Creator.CreatorAddress(up.creatorLookup);
      var draft := Draft(address, Resolved(up.market, up.detail, creator, counted));
      var ra := Risk.AnalyzeRisks(draft);
      var tokenData := draft.(riskAnalysis := ra);
      cache := cache[address := tokenData];
      response := Ok(tokenData);
    }
  }
}
