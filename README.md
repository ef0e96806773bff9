# montoks token analysis, modelled in Dafny

montoks is a backend that produces a risk report for a token contract on the
Monad test network. Its token endpoint does the following:

- it checks the contract address;
- it serves a cached report when there is one;
- otherwise it gathers four upstream answers:
  - the market provider's payload;
  - the indexer's token detail;
  - the block explorer's contract-creation record;
  - the indexer's holder pages.
- From those it assembles a token record, scores it with the risk scorer and
  caches the result.

This project models that pipeline. Every upstream answer is an input value.

| file | models |
|---|---|
| `optional.dfy` | `Option`, for fields that may be absent |
| `text.dfy` | decimal digit strings and their values, ASCII lower-casing, `includes`, and JavaScript's `a \|\| b \|\| c` on optional strings |
| `token.dfy` | the records of `types.ts`: `TokenData`, `RiskAnalysis`, holders, the creator balance, and the two-decimal rendering of a percentage |
| `supply.dfy` | `formatSupplyWithDecimals`, together with an inverse `Unformat` that reads a rendered amount back |
| `creator.dfy` | the classification of the creator lookup (`getCreatorAddress`), `findCreatorBalance` and its guard in the handler |
| `holders.dfy` | the `getTotalHoldersCount` loop as a method. It is proved against `ExpectedCount`, a declarative description of what the walk returns. |
| `risk.dfy` | `analyzeRisks`, as a method that accumulates score and reasons rule by rule. It is proved equal to `Analysis`, the declarative scorer. |
| `server.dfy` | the address check, the per-field fallbacks of the assembled record, the fixed error record, the holder-count endpoint, and the token endpoint as a class whose state is the cache |

## Design notes

- **Risk reasons.** A reason is a datatype constructor. Reasons that quote a
  number carry that number; the surrounding text is not reproduced.
- **Creator balance.** This is the datatype `BalanceNoData | BalanceError | Sold | Holds(percent)`
  rather than a string. In the code, `findCreatorBalance` writes the
  matching holder's percentage as text with two decimals and a "%"
  (`backend/src/server.ts:62`). The scorer later parses that text back into
  a number (`backend/src/riskAnalysis.ts:39`). The model's record keeps the
  unrounded `Holds(p)`. The two-decimal rounding is applied only inside
  `Risk.CreatorRule`, through `Token.TwoDecimals` (round half away from
  zero), so the rule sees the same number the code parses.
- **Percentages.** Holder percentages are `real`.
- **Supply.** The supply is an exact natural number. Only decimal digit
  strings parse. The empty string parses as 0, as `BigInt("")` does.
- **Decimals.** `decimals || 18` turns a provider's `0` into 18
  (`backend/src/server.ts:273`). `Server.DecimalsOf` keeps that behaviour,
  and its contract says so.
- **Mint authority and liquidity.** An assembled record always has these as
  "No Data" (`backend/src/server.ts:318-319`). `Server.AssembledNeverGood`
  proves the consequence: every freshly assembled record scores at least 40,
  so it is never Good.
- **Avatar.** The avatar URL is the detail payload's logo when it is
  non-empty, and absent otherwise. The market payload's logo is never
  consulted (`backend/src/server.ts:310`).

## Model

| member | source | states |
|---|---|---|
| Text.NatToDigits | backend/src/server.ts:285 | `toString` of a non-negative integer is a non-empty digit string with no leading zero whose value is the integer |
| Text.Lower | backend/src/server.ts:54-56 | `toLowerCase` keeps the length and maps each position's letter A-Z to a-z, leaving other characters alone |
| Text.ContainsMeansOccurs | backend/src/riskAnalysis.ts:47 | `includes` holds exactly when the substring occurs at some position |
| Text.FirstTruthy | backend/src/server.ts:119 | an `\|\|` chain gives the first present, non-empty candidate, and the fallback when there is none |
| Token.TwoDecimals | backend/src/server.ts:62 | a percentage shown with two decimals is a whole number of hundredths within 0.005 of the true value, which pins it as the nearest hundredth |
| Supply.DivMod | backend/src/server.ts:281-282 | the quotient and remainder recombine to the supply, and the remainder is below the divisor |
| Supply.PadStartContent | backend/src/server.ts:288 | `padStart` puts only '0's on the left and keeps the text itself as the tail; `PadStart`'s own contract gives the width, max(width, length) |
| Supply.StripTrailingZeros | backend/src/server.ts:289 | the result is a prefix of the input and does not end in '0' |
| Supply.StrippedAreZeros | backend/src/server.ts:289 | every character removed by the strip was a '0' |
| Supply.FormatSupply | backend/src/server.ts:277-296 | the result is "Error" exactly when the supply is not a digit string or the decimals count is negative, as BigInt then throws |
| Supply.PaddedRemainder | backend/src/server.ts:288 | padding a nonzero remainder below 10^d gives exactly d digits with the remainder's value |
| Supply.StrippedNonzero | backend/src/server.ts:289 | stripping a digit string of nonzero value leaves a non-empty part not ending in '0' that pads back to the same value |
| Supply.StripThenPad | backend/src/server.ts:289 | appending as many zeros as were stripped restores the string |
| Supply.FractionDigits | backend/src/server.ts:288-291 | the fractional part has 1 to d digits, does not end in '0', and right-padded to d digits gives back the remainder |
| Supply.FormatShape | backend/src/server.ts:281-291 | the text before '.' is the quotient; a '.' appears exactly when the remainder is nonzero; the fraction then has at most d digits and no trailing '0' |
| Supply.SupplyRoundTrip | backend/src/server.ts:279-291 | reading the rendering back (whole × 10^d plus the right-padded fraction) gives the original supply |
| Supply.RoundTripWhole | backend/src/server.ts:284-285 | with a zero remainder, the rendering is only the whole part and reads back to the supply |
| Supply.RoundTripFraction | backend/src/server.ts:288-291 | with a nonzero remainder, "whole.fraction" reads back to the supply |
| Supply.NoDecimalsIsWhole | backend/src/server.ts:280-285 | with 0 decimals the rendering is the supply's own canonical digits |
| Creator.CreatorAddress | backend/src/server.ts:21-44 | the first listed creator when the status is "1" and the list is non-empty; "No Data" for any other payload and for a failed request |
| Creator.FindHolder | backend/src/server.ts:54-56 | finds the first holder whose lower-cased address equals the key, and finds none exactly when no holder matches |
| Creator.FindCreatorBalance | backend/src/server.ts:49-63 | "No Data" exactly for an empty, "Error" or "No Data" creator; SOLD exactly when no holder matches case-insensitively; otherwise the first matching holder's percentage, as `find` returns; never an error |
| Creator.GuardedCreatorBalance | backend/src/server.ts:301-303 | skipping the lookup for a "No Data" creator gives the same balance as the lookup |
| Creator.BalanceIgnoresCase | backend/src/server.ts:54-55 | two creator spellings that lower-case alike get the same balance, neither being a sentinel ("", "Error", "No Data", which are compared exactly, so "ERROR" is searched for while "Error" is not) |
| Creator.FailedResolutionHasNoBalance | backend/src/server.ts:33-36 | an unresolved creator always ends in a "No Data" balance |
| Holders.Normalize | backend/src/server.ts:118-121 | the address is the first non-empty of holder, accountAddress and address, else "Unknown"; a missing percentage is 0 |
| Holders.TopHolders | backend/src/server.ts:118 | at most the first ten entries, each normalized, in order |
| Holders.LastPage | backend/src/server.ts:124-139 | the last page requested is the first page after which the walk does not go on, or page 1000 |
| Holders.TotalHoldersCount | backend/src/server.ts:80-149 | the loop returns the count over all pages requested together with page 1's top holders, or zero and none when a page raises; it requests pages 1, 2, … in order and never more than 1000 |
| Holders.CountAtLastPage | backend/src/server.ts:142-143 | after the last page, with no raise, the result is the summed entries and page 1's top holders |
| Holders.ThrowStopsCount | backend/src/server.ts:145-148 | a raise on any requested page gives a total of zero and no top holders |
| Holders.LastPageIsFirstStop | backend/src/server.ts:124-128 | the walk ends at the first page that is short, has a missing, zero or not-later next index, or failed |
| Holders.ShortPageIsLast | backend/src/server.ts:124-125 | a page with fewer than 50 entries is the last one requested |
| Holders.CeilingStopsWalk | backend/src/server.ts:136-139 | when every page is full and points onward, the walk stops at page 1000 |
| Holders.FailedPageKeepsPartialTotal | backend/src/server.ts:102-112 | a non-ok or invalid page ends the walk, keeping the total counted before it, and page 1's top holders (none when page 1 failed) |
| Risk.LevelOf | backend/src/riskAnalysis.ts:62-69 | Good exactly up to 30, Normal exactly from 31 to 60, Danger exactly above 60 |
| Risk.MintRuleOutcome | backend/src/riskAnalysis.ts:8-11 | the mint rule fires exactly when the authority is not "Revoked", adding 25 |
| Risk.ConcentrationRuleOutcome | backend/src/riskAnalysis.ts:14-26 | with top holders present, a ten-holder share above 90 adds 30 and one above 70 up to 90 adds 20; the tiers are exclusive; the rule adds nothing exactly when there are no top holders or the share is 70 or below |
| Risk.DominanceRuleOutcome | backend/src/riskAnalysis.ts:28-31 | a first holder above 20 percent adds 10, with that holder's share |
| Risk.CreatorRuleOutcome | backend/src/riskAnalysis.ts:35-44 | SOLD adds 20; "No Data" and "Error" add nothing; otherwise 15 exactly when the shown share is below 2 |
| Risk.LiquidityRuleOutcome | backend/src/riskAnalysis.ts:47-50 | a liquidity status mentioning neither "100" nor "Yes" adds 15 |
| Risk.VerificationRuleOutcome | backend/src/riskAnalysis.ts:53-56 | a status other than "Verified" adds 10 |
| Risk.FindingsWeight | backend/src/riskAnalysis.ts:7-56 | the uncapped score is the summed weight of the reasons pushed |
| Risk.Analysis | backend/src/riskAnalysis.ts:58-80 | the score is the uncapped score capped at 100, lies in [0, 100], and the level is that score's level |
| Risk.AnalysisReasons | backend/src/riskAnalysis.ts:71-80 | the reasons are the rules' reasons in order, then the advisory exactly when creator or lpLocked is "No Data"; the score is the capped weight of the reasons shown |
| Risk.ApplyRules | backend/src/riskAnalysis.ts:4-56 | the six if-blocks leave the rules' reasons in evaluation order and the summed weight of the rules that fired |
| Risk.AnalyzeRisks | backend/src/riskAnalysis.ts:3-81 | the method returns exactly the declarative analysis of the record |
| Risk.FindingsMembers | backend/src/riskAnalysis.ts:7-56 | a reason is listed exactly when one of the six rules gives it |
| Risk.AdvisoryShown | backend/src/riskAnalysis.ts:72-74 | the "limited data" advisory is present exactly when creator or lpLocked is "No Data", and the scorer never reports a failure |
| Risk.RawScoreBound | backend/src/riskAnalysis.ts:7-56 | the uncapped score never exceeds 110 |
| Risk.WorstCaseScore | backend/src/riskAnalysis.ts:58-69 | 110 is reached, which is capped to 100, Danger |
| Risk.LevelMonotone | backend/src/riskAnalysis.ts:62-69 | the level never falls as the score rises |
| Risk.MintAuthorityWeighs25 | backend/src/riskAnalysis.ts:8-11 | an authority that is not revoked adds exactly 25, whatever the other fields |
| Risk.LowCreatorShare | backend/src/riskAnalysis.ts:39-40 | a creator share counts as low exactly when it is below 1.995, because it then shows below 2.00 |
| Risk.ScoreReadsFiveFields | backend/src/riskAnalysis.ts:7-80 | score, level and rule reasons depend only on mintAuthority, topHolders, creatorBalance, lpLocked and verified; with creator also equal, the whole analysis is equal |
| Risk.AnalysisIgnoresStoredAnalysis | backend/src/riskAnalysis.ts:3-81 | the analysis does not depend on the analysis the record already carries |
| Risk.NoDataLiquidityNotLocked | backend/src/riskAnalysis.ts:47-50 | a "No Data" liquidity status counts as not locked |
| Risk.MintAndLiquidityFloor | backend/src/riskAnalysis.ts:8-50 | when the mint and liquidity rules both fire, the score is at least 40 and the level is not Good |
| Risk.UnknownMintAndLiquidity | backend/src/riskAnalysis.ts:7-74 | an unrevoked authority with "No Data" liquidity scores at least 40, is never Good, opens with the mint warning and closes with the advisory |
| Risk.FirstFindingIsMint | backend/src/riskAnalysis.ts:8-11 | when the mint rule fires, its reason comes first |
| Risk.ScenarioRules | backend/src/riskAnalysis.ts:14-31 | for holders 40/30/10/5/5 the ten-holder share is exactly 90, which is not above 90, so the 70 tier applies |
| Risk.ScenarioShape | backend/src/riskAnalysis.ts:4-56 | a record on which the mint, high-concentration, dominance, sold and liquidity rules fire scores 90 with those reasons in that order |
| Risk.ScenarioFindings | backend/src/riskAnalysis.ts:4-56 | the scenario's rule reasons and uncapped score of 90 |
| Risk.ScenarioScore | backend/src/riskAnalysis.ts:3-81 | the scenario's full analysis: 90, Danger, five rule reasons, then the advisory |
| Server.ValidAddress | backend/src/server.ts:233 | an address is accepted exactly when it has 42 characters and starts with "0x" |
| Server.Fallback | backend/src/server.ts:308-309 | detail, else market, else the placeholder, taking only present, non-empty values |
| Server.DecimalsOf | backend/src/server.ts:273 | an absent or zero count becomes 18; any other value given is used |
| Server.HoldersText | backend/src/server.ts:317 | "Error" exactly when the count is zero; otherwise the count's canonical digits: its value, with no leading zero |
| Server.VerifiedText | backend/src/server.ts:320 | "Verified" exactly when the detail says verified, otherwise "Unverified" |
| Server.Draft | backend/src/server.ts:306-329 | the assembled record carries the requested address and the placeholder analysis (0, Good, no reasons); its other fields are stated by Server.RecordFields |
| Server.TokenRecord | backend/src/server.ts:306-332 | the returned record is the assembled draft, with the analysis the scorer gives that very record |
| Server.RecordFields | backend/src/server.ts:306-329 | each field's source and precedence: the address; name and symbol (detail, market, "Error"); the logo; the supply as `formatSupplyWithDecimals` renders the raw supply (detail, market, "0") at the shown decimals; decimals; the creator; holders as the count's canonical digits, "Error" for zero; mintAuthority and lpLocked always "No Data"; "Verified" for a verified token and "Unverified" otherwise; categories (the market's when present, else none); top holders; no markets; and the creator's balance |
| Server.RecordSupplyRoundTrip | backend/src/server.ts:274-298 | when the raw supply (the detail's, else the market's, else "0") is a digit string and the decimals count is positive, the shown supply reads back, at the shown decimals, as that raw supply |
| Server.NoSupplyShowsZero | backend/src/server.ts:274 | with no supply from either payload and a positive decimals count, the shown supply is "0" |
| Server.AssembledNeverGood | backend/src/server.ts:318-332 | every assembled record scores at least 40, is never Good, opens with the mint warning and closes with the advisory |
| Server.ErrorRecord | backend/src/server.ts:343-366 | the error record keeps the requested address; name, symbol, supply, creator, holders and verified are "Error"; the balance is the error balance; there is no logo; decimals are 18; mintAuthority and lpLocked are "No Data"; the lists are empty; the analysis is score 0, Good, with exactly the one failure reason |
| Server.ErrorRecordNotScored | backend/src/server.ts:343-366 | the error record's fixed analysis is not what the scorer gives its fields (50, Normal) |
| Server.ErrorShapeScore | backend/src/server.ts:350-357 | any record with the error record's scored fields has an uncapped score of 50 and level Normal |
| Server.HoldersCount | backend/src/server.ts:474-489 | a malformed address is rejected and no page is requested; a valid address requests between one page and the walk's last page and reports the paginator's total |
| Server.TokenService.constructor | backend/src/cache.ts:5-8 | the cache starts empty |
| Server.TokenService.AnalyzeToken | backend/src/server.ts:229-370 | every record returned carries the requested address and an analysis with a score in [0, 100] and that score's level; a malformed address gives 400 and touches nothing; a cached address returns its cached record; a raising assembly returns the error record uncached; otherwise the assembled, scored record is returned and cached under its address |

## Left out

- The gas-price, MON-price, category and proxy endpoints, the `price` and
  `priceMon` fields, and all `toFixed` text. These are floating-point
  formatting or pure HTTP forwarding.
- Express routing, `fetch`, headers, environment configuration, `console`
  logging and the 100 ms `setTimeout` pause between pages. Every upstream
  answer is an input value.
- `Promise.all` and `safeAsync`. Each of the four lookups is modelled as
  already resolved to its value or its default.
- The LRU size limit and 24-hour expiry of the cache. The cache is a map
  that is only read and written. The library behind it is not part of this
  model.
- The frontend.
- Server.TokenService.AnalyzeToken: a failure during assembly is the boolean
  input `assemblyFails`, not derived from the data.
- Supply.FormatSupply: `BigInt` also accepts hexadecimal, surrounding
  whitespace and a sign. The model accepts only decimal digit strings and
  renders anything else as "Error". A non-integer decimals count is not
  modelled.
- Server.ValidAddress: lengths are counted in characters (Unicode scalar values), not in the UTF-16 code units of JavaScript's `length`. An address containing a character outside the Basic Multilingual Plane is therefore measured differently: one character in the model, two units in JavaScript.
- Text.Lower: only ASCII letters are lower-cased, whereas `toLowerCase` also
  folds other scripts.
- Holders.Normalize: a percentage arrives already parsed as a number.
  `parseFloat` of malformed text and the resulting NaN are not modelled.
- Risk.ConcentrationRuleOutcome: the percentages are summed as exact reals,
  without floating-point rounding.
- Holders.TotalHoldersCount: the pages requested are reported as a ghost
  sequence, for the proof only.
- Risk.AnalyzeRisks: the six rules run in the helper method
  `Risk.ApplyRules`, which it calls. Capping, level and advisory stay in
  `AnalyzeRisks` itself.
