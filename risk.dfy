/**
 * The risk scorer: additive weighted rules over a token record, evaluated
 * in a fixed order, a cap at 100, and a three-level classification.
 *
 * Each rule contributes at most one reason, so a rule is specified as a
 * function returning the reason it contributes, if any, and the reasons of
 * a record are those contributions appended in evaluation order.
 */
module Risk {
  import opened Optional
  import opened Text
  import opened Token

  const MaxScore := 100
  const GoodCeiling := 30
  const NormalCeiling := 60
  /** The summed weight of every rule that can fire at once. */
  const MaxRawScore := 110

  /** What each reason adds to the score; the advisories add nothing. */
  function Weight(r: Reason): nat {
    match r
    case MintAuthorityEnabled => 25
    case ExtremeConcentration(_) => 30
    case HighConcentration(_) => 20
    case SingleHolderDominance(_) => 10
    case CreatorSold => 20
    case LowCreatorHolding(_) => 15
    case LiquidityNotLocked => 15
    case NotVerified => 10
    case LimitedData => 0
    case AnalysisFailed => 0
  }

  /** The summed weight of a list of reasons. */
  function TotalWeight(reasons: seq<Reason>): nat {
    if reasons == [] then 0
    else TotalWeight(reasons[..|reasons| - 1]) + Weight(reasons[|reasons| - 1])
  }

  /** What a rule adds to the score: the weight of its reason when it fires. */
  function Contribution(fired: Option<Reason>): nat {
    match fired
    case None => 0
    case Some(r) => Weight(r)
  }

  /** `reasons.push(...)` when the rule fired, nothing otherwise. */
  function Then(acc: seq<Reason>, fired: Option<Reason>): seq<Reason> {
    match fired
    case None => acc
    case Some(reason) => acc + [reason]
  }

  /** Pushing a reason adds its weight to the total. */
  lemma ThenWeight(acc: seq<Reason>, fired: Option<Reason>)
    ensures TotalWeight(Then(acc, fired)) == TotalWeight(acc) + Contribution(fired)
  {
    if fired.Some? {
      assert Then(acc, fired)[..|acc|] == acc;
    }
  }

  /** Pushing keeps what was there and puts the pushed reason last. */
  lemma ThenExtends(acc: seq<Reason>, fired: Option<Reason>)
    ensures |Then(acc, fired)| == |acc| + (if fired.Some? then 1 else 0)
    ensures Then(acc, fired)[..|acc|] == acc
    ensures fired.Some? ==> Then(acc, fired)[|acc|] == fired.value
  {
  }

  /** A reason is among the pushed ones exactly when it was there before or is the one pushed. */
  lemma ThenMembers(acc: seq<Reason>, fired: Option<Reason>, x: Reason)
    ensures x in Then(acc, fired) <==> x in acc || fired == Some(x)
  {
    if fired.Some? {
      assert Then(acc, fired) == acc + [fired.value];
    }
  }

  /** The percentages of the first `n` holders added up from the first onwards. */
  function SumPercentages(holders: seq<Holder>, n: nat): real
    requires n <= |holders|
  {
    if n == 0 then 0.0 else SumPercentages(holders, n - 1) + holders[n - 1].percentage
  }

  /** The share of the supply held by the first ten top holders. */
  function Top10Ownership(holders: seq<Holder>): real {
    SumPercentages(holders, if |holders| < 10 then |holders| else 10)
  }

  function Min(a: int, b: int): int {
    if a <= b then a else b
  }

  /** The risk level of a score: at most 30 is Good, at most 60 Normal, above that Danger. */
  function LevelOf(score: int): (level: Level)
    ensures level == Good <==> score <= GoodCeiling
    ensures level == Normal <==> GoodCeiling < score <= NormalCeiling
    ensures level == Danger <==> NormalCeiling < score
  {
    if score <= GoodCeiling then Good
    else if score <= NormalCeiling then Normal
    else Danger
  }

  /** The position of a level in the order Good < Normal < Danger. */
  function Rank(level: Level): nat {
    match level
    case Good => 0
    case Normal => 1
    case Danger => 2
  }

  /** Whether the mint authority is reported as revoked. */
  predicate MintRevoked(t: TokenData) {
    t.mintAuthority == "Revoked"
  }

  /** Whether the liquidity status mentions "100" or "Yes". */
  predicate LiquidityLocked(t: TokenData) {
    Contains(t.lpLocked, "100") || Contains(t.lpLocked, "Yes")
  }

  /** Whether the token is reported as verified. */
  predicate IsVerified(t: TokenData) {
    t.verified == "Verified"
  }

  /** Rule 1: a mint authority that is not revoked adds 25. */
  function MintRule(t: TokenData): Option<Reason> {
    if !MintRevoked(t) then Some(MintAuthorityEnabled) else None
  }

  /**
   * Rule 2: the first ten holders together above 90 percent add 30, or
   * failing that above 70 percent add 20; only when there are top holders.
   * The two tiers exclude each other.
   */
  function ConcentrationRule(t: TokenData): Option<Reason> {
    if |t.topHolders| == 0 then None
    else
      var top10 := Top10Ownership(t.topHolders);
      if top10 > 90.0 then Some(ExtremeConcentration(top10))
      else if top10 > 70.0 then Some(HighConcentration(top10))
      else None
  }

  /** Rule 3: the largest holder alone above 20 percent adds 10. */
  function DominanceRule(t: TokenData): Option<Reason> {
    if |t.topHolders| > 0 && t.topHolders[0].percentage > 20.0
    then Some(SingleHolderDominance(t.topHolders[0].percentage))
    else None
  }

  /**
   * Rule 4: a creator who sold everything adds 20; otherwise a creator
   * whose shown share (two decimals) is below 2 percent adds 15; nothing
   * when the balance is "No Data" or "Error".
   */
  function CreatorRule(t: TokenData): Option<Reason> {
    match t.creatorBalance
    case Sold => Some(CreatorSold)
    case BalanceNoData => None
    case BalanceError => None
    case Holds(p) =>
      var shown := TwoDecimals(p);
      if shown < 2.0 then Some(LowCreatorHolding(shown)) else None
  }

  /** Rule 5: a liquidity status that mentions neither "100" nor "Yes" adds 15. */
  function LiquidityRule(t: TokenData): Option<Reason> {
    if !LiquidityLocked(t) then Some(LiquidityNotLocked) else None
  }

  /** Rule 6: a token that is not "Verified" adds 10. */
  function VerificationRule(t: TokenData): Option<Reason> {
    if !IsVerified(t) then Some(NotVerified) else None
  }

  /** The mint rule fires exactly when the authority is not revoked, adding 25. */
  lemma MintRuleOutcome(t: TokenData)
    ensures MintRule(t).Some? <==> t.mintAuthority != "Revoked"
    ensures MintRule(t).Some? ==> MintRule(t).value == MintAuthorityEnabled
    ensures Contribution(MintRule(t)) == if t.mintAuthority != "Revoked" then 25 else 0
  {
  }

  /**
   * The concentration rule reports the ten-holder share as extreme above 90
   * percent and as high above 70 up to 90, only when there are top holders;
   * the two tiers exclude each other and add 30 and 20.
   */
  lemma ConcentrationRuleOutcome(t: TokenData)
    ensures ConcentrationRule(t).Some? ==> |t.topHolders| > 0
    ensures ConcentrationRule(t).None? <==> |t.topHolders| == 0 || Top10Ownership(t.topHolders) <= 70.0
    ensures ConcentrationRule(t) == Some(ExtremeConcentration(Top10Ownership(t.topHolders)))
        <==> |t.topHolders| > 0 && Top10Ownership(t.topHolders) > 90.0
    ensures ConcentrationRule(t) == Some(HighConcentration(Top10Ownership(t.topHolders)))
        <==> |t.topHolders| > 0 && 70.0 < Top10Ownership(t.topHolders) <= 90.0
    ensures ConcentrationRule(t).Some? ==>
              ConcentrationRule(t).value.ExtremeConcentration? || ConcentrationRule(t).value.HighConcentration?
    ensures Contribution(ConcentrationRule(t))
         == if ConcentrationRule(t).None? then 0
            else if ConcentrationRule(t).value.ExtremeConcentration? then 30 else 20
  {
  }

  /** The dominance rule fires exactly when the first holder has above 20 percent, adding 10. */
  lemma DominanceRuleOutcome(t: TokenData)
    ensures DominanceRule(t).Some? <==> |t.topHolders| > 0 && t.topHolders[0].percentage > 20.0
    ensures DominanceRule(t).Some? ==>
              DominanceRule(t).value == SingleHolderDominance(t.topHolders[0].percentage)
    ensures Contribution(DominanceRule(t)) == if DominanceRule(t).Some? then 10 else 0
  {
  }

  /**
   * The creator rule reports a sale (20) exactly when the creator sold, is
   * silent on "No Data" and "Error", and otherwise fires (15) exactly when
   * the share shown with two decimals is below 2.
   */
  lemma CreatorRuleOutcome(t: TokenData)
    ensures CreatorRule(t) == Some(CreatorSold) <==> t.creatorBalance == Sold
    ensures t.creatorBalance in {BalanceNoData, BalanceError} ==> CreatorRule(t).None?
    ensures t.creatorBalance.Holds? ==>
              (CreatorRule(t).Some? <==> TwoDecimals(t.creatorBalance.percent) < 2.0)
    ensures t.creatorBalance.Holds? && CreatorRule(t).Some? ==>
              CreatorRule(t).value == LowCreatorHolding(TwoDecimals(t.creatorBalance.percent))
    ensures Contribution(CreatorRule(t))
         == if t.creatorBalance == Sold then 20 else if CreatorRule(t).Some? then 15 else 0
  {
  }

  /** The liquidity rule fires exactly when the status mentions neither "100" nor "Yes", adding 15. */
  lemma LiquidityRuleOutcome(t: TokenData)
    ensures LiquidityRule(t).Some? <==> !Contains(t.lpLocked, "100") && !Contains(t.lpLocked, "Yes")
    ensures LiquidityRule(t).Some? ==> LiquidityRule(t).value == LiquidityNotLocked
    ensures Contribution(LiquidityRule(t)) == if LiquidityRule(t).Some? then 15 else 0
  {
  }

  /** The verification rule fires exactly when the status is not "Verified", adding 10. */
  lemma VerificationRuleOutcome(t: TokenData)
    ensures VerificationRule(t).Some? <==> t.verified != "Verified"
    ensures VerificationRule(t).Some? ==> VerificationRule(t).value == NotVerified
    ensures Contribution(VerificationRule(t)) == if VerificationRule(t).Some? then 10 else 0
  {
  }

  /** The uncapped score: the summed contributions of the six rules. */
  function RawScore(t: TokenData): nat {
    Contribution(MintRule(t)) + Contribution(ConcentrationRule(t)) + Contribution(DominanceRule(t))
      + Contribution(CreatorRule(t)) + Contribution(LiquidityRule(t)) + Contribution(VerificationRule(t))
  }

  /** The reasons of the rules that fire on `t`, in evaluation order. */
  function Findings(t: TokenData): seq<Reason> {
    Then(Then(Then(Then(Then(Then([], MintRule(t)), ConcentrationRule(t)), DominanceRule(t)),
      CreatorRule(t)), LiquidityRule(t)), VerificationRule(t))
  }

  /** The uncapped score is the summed weight of the reasons the rules give. */
  lemma FindingsWeight(t: TokenData)
    ensures TotalWeight(Findings(t)) == RawScore(t)
  {
    var a := Then([], MintRule(t));
    var b := Then(a, ConcentrationRule(t));
    var c := Then(b, DominanceRule(t));
    var d := Then(c, CreatorRule(t));
    var e := Then(d, LiquidityRule(t));
    ThenWeight([], MintRule(t));
    ThenWeight(a, ConcentrationRule(t));
    ThenWeight(b, DominanceRule(t));
    ThenWeight(c, CreatorRule(t));
    ThenWeight(d, LiquidityRule(t));
    ThenWeight(e, VerificationRule(t));
  }

  /** Whether the analysis closes with the "limited data" advisory. */
  predicate LimitedDataAdvisory(t: TokenData) {
    t.creator == NoData || t.lpLocked == NoData
  }

  function Advisory(t: TokenData): Option<Reason> {
    if LimitedDataAdvisory(t) then Some(LimitedData) else None
  }

  /** A risk analysis whose score is in range and whose level is that score's level. */
  predicate WellFormed(ra: RiskAnalysis) {
    0 <= ra.score <= MaxScore && ra.level == LevelOf(ra.score)
  }

  /**
   * The analysis of `t`: the summed weight of the rules that fire, capped
   * at 100, as the score; the score's level; the rules' reasons in order,
   * followed by the advisory exactly when creator or lpLocked is "No Data".
   */
  function Analysis(t: TokenData): (ra: RiskAnalysis)
    ensures WellFormed(ra)
    ensures ra.score == Min(RawScore(t), MaxScore)
  {
    var score := Min(RawScore(t), MaxScore);
    RiskAnalysis(score, LevelOf(score), Then(Findings(t), Advisory(t)))
  }

  /**
   * The reasons of an analysis are the rules' reasons in evaluation order,
   * then the advisory exactly when creator or lpLocked is "No Data"; the
   * advisory weighs nothing, so the score is also the capped total weight
   * of all the reasons shown.
   */
  lemma AnalysisReasons(t: TokenData)
    ensures var ra := Analysis(t);
      && |ra.reasons| == |Findings(t)| + (if LimitedDataAdvisory(t) then 1 else 0)
      && ra.reasons[..|Findings(t)|] == Findings(t)
      && (LimitedDataAdvisory(t) ==> ra.reasons[|ra.reasons| - 1] == LimitedData)
      && ra.score == Min(TotalWeight(ra.reasons), MaxScore)
  {
    ThenExtends(Findings(t), Advisory(t));
    ThenWeight(Findings(t), Advisory(t));
    FindingsWeight(t);
  }

  /**
   * The six weighted rules of `analyzeRisks`, in order: each one that fires
   * adds its weight to `score` and pushes its reason. The ghost `before`
   * holds the reasons pushed before the rule being evaluated.
   */
  method ApplyRules(t: TokenData) returns (score: int, reasons: seq<Reason>)
    ensures reasons == Findings(t)
    ensures score == RawScore(t)
  {
    reasons := [];
    score := 0;

    ghost var before := reasons;
    if !MintRevoked(t) {
      score := score + 25;
      reasons := reasons + [MintAuthorityEnabled];
    }
    assert reasons == Then(before, MintRule(t));
    ghost var weight := Contribution(MintRule(t));
    assert score == weight;

    before := reasons;
    if |t.topHolders| > 0 {
      var top10Ownership := Top10Ownership(t.topHolders);
      if top10Ownership > 90.0 {
        score := score + 30;
        reasons := reasons + [ExtremeConcentration(top10Ownership)];
      } else if top10Ownership > 70.0 {
        score := score + 20;
        reasons := reasons + [HighConcentration(top10Ownership)];
      }
      assert reasons == Then(before, ConcentrationRule(t));
      before := reasons;
      if t.topHolders[0].percentage > 20.0 {
        score := score + 10;
        reasons := reasons + [SingleHolderDominance(t.topHolders[0].percentage)];
      }
      assert reasons == Then(before, DominanceRule(t));
    } else {
      assert reasons == Then(Then(before, ConcentrationRule(t)), DominanceRule(t));
    }
    weight := weight + Contribution(ConcentrationRule(t)) + Contribution(DominanceRule(t));
    assert score == weight;

    before := reasons;
    if t.creatorBalance == Sold {
      score := score + 20;
      reasons := reasons + [CreatorSold];
    } else if t.creatorBalance != BalanceNoData && t.creatorBalance != BalanceError {
      var creatorPercentage := TwoDecimals(t.creatorBalance.percent);
      if creatorPercentage < 2.0 {
        score := score + 15;
        reasons := reasons + [LowCreatorHolding(creatorPercentage)];
      }
    }
    assert reasons == Then(before, CreatorRule(t));
    weight := weight + Contribution(CreatorRule(t));
    assert score == weight;

    before := reasons;
    if !LiquidityLocked(t) {
      score := score + 15;
      reasons := reasons + [LiquidityNotLocked];
    }
    assert reasons == Then(before, LiquidityRule(t));
    weight := weight + Contribution(LiquidityRule(t));
    assert score == weight;

    before := reasons;
    if !IsVerified(t) {
      score := score + 10;
      reasons := reasons + [NotVerified];
    }
    assert reasons == Then(before, VerificationRule(t));
  }

  /**
   * `analyzeRisks`: applies the rules, caps the score at 100, classifies
   * it and pushes the advisory when creator or lpLocked is "No Data".
   */
  method AnalyzeRisks(t: TokenData) returns (ra: RiskAnalysis)
    ensures ra == Analysis(t)
  {
    var score, reasons := ApplyRules(t);

    var normalizedScore := Min(score, MaxScore);

    var level := Good;
    if normalizedScore <= GoodCeiling {
      level := Good;
    } else if normalizedScore <= NormalCeiling {
      level := Normal;
    } else {
      level := Danger;
    }

    if LimitedDataAdvisory(t) {
      reasons := reasons + [LimitedData];
    }

    ra := RiskAnalysis(normalizedScore, level, reasons);
  }

  /** A reason is among the rules' reasons exactly when one of the six rules gives it. */
  lemma FindingsMembers(t: TokenData, x: Reason)
    ensures x in Findings(t) <==>
      MintRule(t) == Some(x) || ConcentrationRule(t) == Some(x) || DominanceRule(t) == Some(x)
      || CreatorRule(t) == Some(x) || LiquidityRule(t) == Some(x) || VerificationRule(t) == Some(x)
  {
    var a := Then([], MintRule(t));
    var b := Then(a, ConcentrationRule(t));
    var c := Then(b, DominanceRule(t));
    var d := Then(c, CreatorRule(t));
    var e := Then(d, LiquidityRule(t));
    ThenMembers([], MintRule(t), x);
    ThenMembers(a, ConcentrationRule(t), x);
    ThenMembers(b, DominanceRule(t), x);
    ThenMembers(c, CreatorRule(t), x);
    ThenMembers(d, LiquidityRule(t), x);
    ThenMembers(e, VerificationRule(t), x);
  }

  /**
   * The "limited data" advisory is among the reasons exactly when creator or
   * lpLocked is "No Data", and an analysis never reports a failure.
   */
  lemma AdvisoryShown(t: TokenData)
    ensures LimitedData in Analysis(t).reasons <==> LimitedDataAdvisory(t)
    ensures AnalysisFailed !in Analysis(t).reasons
  {
    FindingsMembers(t, LimitedData);
    FindingsMembers(t, AnalysisFailed);
    ThenMembers(Findings(t), Advisory(t), LimitedData);
    ThenMembers(Findings(t), Advisory(t), AnalysisFailed);
  }

  /** No record scores more than the six weights together, 110 before the cap. */
  lemma RawScoreBound(t: TokenData)
    ensures RawScore(t) <= MaxRawScore
  {
  }

  /** The scorer does not read the analysis a record already carries. */
  lemma AnalysisIgnoresStoredAnalysis(t: TokenData, stored: RiskAnalysis)
    ensures Analysis(t.(riskAnalysis := stored)) == Analysis(t)
  {
    ScoreReadsFiveFields(t.(riskAnalysis := stored), t);
  }

  /** A liquidity status of "No Data" counts as not locked. */
  lemma NoDataLiquidityNotLocked(t: TokenData)
    requires t.lpLocked == NoData
    ensures LiquidityRule(t) == Some(LiquidityNotLocked)
  {
    AbsentFirstChar(NoData, "100");
    AbsentFirstChar(NoData, "Yes");
  }

  /** The mint and liquidity rules firing together put the uncapped score at 40 or more. */
  lemma MintAndLiquidityFloor(t: TokenData)
    requires MintRule(t).Some? && LiquidityRule(t).Some?
    ensures RawScore(t) >= 40
    ensures 40 <= Analysis(t).score && Analysis(t).level != Good
  {
  }

  /**
   * A record whose mint authority is not "Revoked" and whose liquidity is
   * "No Data" scores at least 40, so it is never Good; its reasons open with
   * the mint warning and close with the "limited data" advisory.
   */
  lemma UnknownMintAndLiquidity(t: TokenData)
    requires t.mintAuthority != "Revoked" && t.lpLocked == NoData
    ensures var ra := Analysis(t);
      && ra.score >= 40 && ra.level != Good
      && |ra.reasons| >= 3
      && ra.reasons[0] == MintAuthorityEnabled
      && ra.reasons[|ra.reasons| - 1] == LimitedData
  {
    NoDataLiquidityNotLocked(t);
    MintAndLiquidityFloor(t);
    FirstFindingIsMint(t);
    FindingsMembers(t, LiquidityNotLocked);
    assert |Findings(t)| >= 2;
    AnalysisReasons(t);
  }

  /** When the mint rule fires, its reason is the first of the rules' reasons. */
  lemma FirstFindingIsMint(t: TokenData)
    requires MintRule(t).Some?
    ensures |Findings(t)| >= 1 && Findings(t)[0] == MintAuthorityEnabled
  {
    var a := Then([], MintRule(t));
    assert a == [MintAuthorityEnabled];
    var b := Then(a, ConcentrationRule(t));
    var c := Then(b, DominanceRule(t));
    var d := Then(c, CreatorRule(t));
    var e := Then(d, LiquidityRule(t));
    ThenExtends(a, ConcentrationRule(t));
    ThenExtends(b, DominanceRule(t));
    ThenExtends(c, CreatorRule(t));
    ThenExtends(d, LiquidityRule(t));
    ThenExtends(e, VerificationRule(t));
    assert b[0] == a[0] && c[0] == b[0] && d[0] == c[0] && e[0] == d[0];
  }

  /** A record on which every rule fires, with the larger concentration tier. */
  const WorstCase := TokenData("", "", "", None, "", 18, "", Sold, "", "", "", "", [],
                               [Holder("", 95.0)], [], RiskAnalysis(0, Good, []))

  /** The bound is reached: all six rules fire for 110, capped to 100, Danger. */
  lemma WorstCaseScore()
    ensures RawScore(WorstCase) == MaxRawScore
    ensures Analysis(WorstCase).score == MaxScore && Analysis(WorstCase).level == Danger
  {
    var holders := [Holder("", 95.0)];
    assert SumPercentages(holders, 1) == SumPercentages(holders, 0) + 95.0;
    assert Top10Ownership(WorstCase.topHolders) == 95.0;
  }

  /** The risk level never falls as the score rises. */
  lemma LevelMonotone(a: int, b: int)
    requires a <= b
    ensures Rank(LevelOf(a)) <= Rank(LevelOf(b))
  {
  }

  /** Revoking the mint authority lowers the uncapped score by exactly 25, whatever else holds. */
  lemma MintAuthorityWeighs25(t: TokenData, authority: string)
    requires authority != "Revoked"
    ensures RawScore(t.(mintAuthority := authority))
         == RawScore(t.(mintAuthority := "Revoked")) + 25
  {
  }

  /** A creator share counts as low exactly when it is below 1.995 percent, as it then shows below 2.00. */
  lemma LowCreatorShare(p: real)
    ensures TwoDecimals(p) < 2.0 <==> p < 1.995
  {
    if p >= 0.0 {
      var k := (p * 100.0 + 0.5).Floor;
      assert k as real <= p * 100.0 + 0.5 < k as real + 1.0;
      assert TwoDecimals(p) == k as real / 100.0;
    }
  }

  /**
   * Score, level and rule reasons read only mintAuthority, topHolders,
   * creatorBalance, lpLocked and verified; creator and the other fields can
   * at most add the advisory.
   */
  lemma ScoreReadsFiveFields(t: TokenData, u: TokenData)
    requires t.mintAuthority == u.mintAuthority && t.topHolders == u.topHolders
    requires t.creatorBalance == u.creatorBalance && t.lpLocked == u.lpLocked
    requires t.verified == u.verified
    ensures Findings(t) == Findings(u)
    ensures Analysis(t).score == Analysis(u).score && Analysis(t).level == Analysis(u).level
    ensures t.creator == u.creator ==> Analysis(t) == Analysis(u)
  {
    assert MintRule(t) == MintRule(u) && ConcentrationRule(t) == ConcentrationRule(u);
    assert DominanceRule(t) == DominanceRule(u) && CreatorRule(t) == CreatorRule(u);
    assert LiquidityRule(t) == LiquidityRule(u) && VerificationRule(t) == VerificationRule(u);
  }

  /**
   * Holders of 40, 30, 10, 5 and 5 percent, a creator "0xc0ffee" who is not
   * among them and so has sold, liquidity
   * and mint authority without data and a verified token: the ten-holder
   * share is exactly 90, so the high tier applies, and the score is 90.
   */
  const Scenario := TokenData("", "", "", None, "", 18, "0xc0ffee", Sold, "", NoData, NoData, "Verified", [],
                              [Holder("", 40.0), Holder("", 30.0), Holder("", 10.0), Holder("", 5.0), Holder("", 5.0)],
                              [], RiskAnalysis(0, Good, []))

  lemma ScenarioScore()
    ensures Analysis(Scenario).score == 90 && Analysis(Scenario).level == Danger
    ensures Analysis(Scenario).reasons
         == [MintAuthorityEnabled, HighConcentration(90.0), SingleHolderDominance(40.0),
             CreatorSold, LiquidityNotLocked, LimitedData]
  {
    ScenarioFindings();
  }

  lemma ScenarioFindings()
    ensures RawScore(Scenario) == 90
    ensures Findings(Scenario) == [MintAuthorityEnabled, HighConcentration(90.0), SingleHolderDominance(40.0),
                                   CreatorSold, LiquidityNotLocked]
  {
    ScenarioRules();
    ScenarioShape(Scenario);
  }

  /** Any record on which exactly the scenario's rules fire scores 90 with the scenario's reasons. */
  lemma ScenarioShape(t: TokenData)
    requires MintRule(t) == Some(MintAuthorityEnabled)
    requires ConcentrationRule(t) == Some(HighConcentration(90.0))
    requires DominanceRule(t) == Some(SingleHolderDominance(40.0))
    requires CreatorRule(t) == Some(CreatorSold)
    requires LiquidityRule(t) == Some(LiquidityNotLocked)
    requires VerificationRule(t) == None
    ensures RawScore(t) == 90
    ensures Findings(t) == [MintAuthorityEnabled, HighConcentration(90.0), SingleHolderDominance(40.0),
                            CreatorSold, LiquidityNotLocked]
  {
  }

  /**
   * On the scenario the top ten hold exactly 90 percent, which is not above
   * 90, and "No Data" mentions neither "100" nor "Yes".
   */
  lemma ScenarioRules()
    ensures MintRule(Scenario) == Some(MintAuthorityEnabled)
    ensures ConcentrationRule(Scenario) == Some(HighConcentration(90.0))
    ensures DominanceRule(Scenario) == Some(SingleHolderDominance(40.0))
    ensures CreatorRule(Scenario) == Some(CreatorSold)
    ensures LiquidityRule(Scenario) == Some(LiquidityNotLocked)
    ensures VerificationRule(Scenario) == None
  {
    var h := Scenario.topHolders;
    assert SumPercentages(h, 2) == 70.0 by {
      assert SumPercentages(h, 1) == SumPercentages(h, 0) + 40.0;
    }
    assert SumPercentages(h, 5) == 90.0 by {
      assert SumPercentages(h, 4) == SumPercentages(h, 3) + 5.0;
      assert SumPercentages(h, 3) == 80.0;
    }
    AbsentFirstChar(NoData, "100");
    AbsentFirstChar(NoData, "Yes");
  }
}
