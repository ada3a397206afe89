/** Records and enumerations of the valuation engine: stages, method keys,
    calculator inputs and the result records the calculators, the aggregator
    and the offer evaluator produce (foundervalue/lib/types.ts). */
module Types {

  /** An optional value; `None` plays the part of `undefined` / `null`. */
  datatype Option<+T> = None | Some(value: T) {
    function GetOr(default: T): T {
      match this
      case Some(v) => v
      case None => default
    }
  }

  /** The six funding stages, in the order the stage registry lists them. */
  datatype StageSlug = PreSeed | Seed | SeriesA | SeriesBC | Growth | AcquisitionIpo

  /** The six valuation methods. */
  datatype MethodKey = Berkus | Scorecard | VCMethod | ArrMultiples | Dcf | ComparableCompany

  datatype TypicalRange = TypicalRange(min: real, max: real)

  datatype Stage = Stage(
    slug: StageSlug,
    displayLabel: string,
    shortLabel: string,
    description: string,
    typicalRange: TypicalRange,
    methods: seq<MethodKey>,
    raiseRange: string)

  datatype BerkusInputs = BerkusInputs(
    soundIdea: real,
    prototype: real,
    managementTeam: real,
    strategicRelationships: real,
    productRollout: real)

  datatype ScorecardInputs = ScorecardInputs(
    comparableAvgValuation: real,
    teamWeight: real,
    opportunityWeight: real,
    productWeight: real,
    competitiveWeight: real,
    salesWeight: real,
    additionalInvestmentWeight: real,
    otherWeight: real)

  datatype VCMethodInputs = VCMethodInputs(
    projectedYear5Revenue: real,
    industryRevenueMultiple: real,
    targetIRR: real,
    investmentAmount: real,
    yearsToExit: int)

  datatype ArrMultiplesInputs = ArrMultiplesInputs(
    currentARR: real,
    revenueGrowthRate: real,
    netProfitMargin: real,
    customMultiple: Option<real>)

  /** Exactly five yearly free-cash-flow projections, years 1 to 5. */
  datatype CashFlows = CashFlows(y1: real, y2: real, y3: real, y4: real, y5: real) {
    function AsSeq(): (s: seq<real>)
      ensures |s| == 5 && s[0] == y1 && s[4] == y5
    {
      [y1, y2, y3, y4, y5]
    }
  }

  datatype DcfInputs = DcfInputs(
    freeCashFlows: CashFlows,
    wacc: real,
    terminalGrowthRate: real)

  datatype ComparableCompanyInputs = ComparableCompanyInputs(
    annualRevenue: real,
    ebitda: real,
    netIncome: real,
    evRevenueMultiple: real,
    evEbitdaMultiple: real,
    peMultiple: real)

  datatype Range = Range(low: real, high: real)

  datatype Confidence = Low | Medium | High

  datatype RuleOf40Tier = Premium | Good | Average | Below

  /** The human-readable notes a calculator attaches to its result, as tags
      carrying the figures the note would print. */
  datatype Note =
    | BerkusCapped
    | AssignBerkusFactors
    | CompositeMultiplier(composite: real)
    | TerminalValueNote(terminalValue: real)
    | PostMoneyNote(postMoney: real)
      /** `None` where the source divides by a zero post-money. */
    | InvestorOwnership(ownershipPercent: Option<real>)
    | RuleOf40Score(score: real, tier: RuleOf40Tier)
    | AppliedMultiple(multiple: real)
    | WaccNotAboveGrowth
    | PresentValueOfFlows(amount: real)
    | PresentValueOfTerminal(amount: real)
    | TerminalShareOfValue(sharePercent: real)
    | EvRevenueImplied(amount: real)
    | EvEbitdaImplied(amount: real)
    | EvEbitdaNotApplicable
    | PeImplied(amount: real)
    | PeNotApplicable

  datatype MethodResult = MethodResult(
    methodKey: MethodKey,
    methodLabel: string,
    value: real,
    range: Range,
    confidence: Confidence,
    notes: seq<Note>)

  /** The aggregate of one stage's method results. The source also stamps the
      calculation time, which is not part of this model. */
  datatype ValuationResults = ValuationResults(
    stage: StageSlug,
    methods: seq<MethodResult>,
    aggregateLow: real,
    aggregateHigh: real,
    aggregateMidpoint: real)

  datatype OfferInputs = OfferInputs(investmentAmount: real, proposedPreMoney: real)

  datatype Verdict =
    | Fair
    | Undervalued
    | Overvalued
    | SignificantlyUndervalued
    | SignificantlyOvervalued

  datatype RedFlag =
    | BelowFairRange
    | ExcessiveDilution(dilution: real, threshold: real)
    | VeryHighImpliedIRR(irr: real)

  datatype GreenFlag =
    | WithinFairRange
    | ComfortableDilution(dilution: real)
    | MarketStandardIRR(irr: real)
    | AboveFairRange

  datatype OfferEvaluationResult = OfferEvaluationResult(
    proposedPreMoney: real,
    postMoney: real,
    fairValueRange: Range,
    verdict: Verdict,
    dilutionPercent: real,
    founderRetainedPercent: real,
    impliedIRR: real,
    redFlags: seq<RedFlag>,
    greenFlags: seq<GreenFlag>)

  datatype RuleOf40Result = RuleOf40Result(
    score: real,
    passes: bool,
    tier: RuleOf40Tier,
    suggestedMultiple: real)
}
