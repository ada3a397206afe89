/** The valuation engine (foundervalue/lib/valuations.ts): six independent
    method calculators, the aggregator that merges their results for a stage,
    and the offer evaluator that grades a proposed term sheet against the
    aggregate fair-value range. Every member is a pure function over exact
    reals; the floating-point rounding of the source is not modelled. */
module Valuations {
  import opened Types
  import opened Seqs
  import opened Constants

  // ---------------------------------------------------------------------------
  // Powers and discounting
  // ---------------------------------------------------------------------------

  /** `x` raised to a whole power, as `Math.pow(x, n)` for integer `n`. */
  function Pow(x: real, n: nat): real
  {
    if n == 0 then 1.0 else x * Pow(x, n - 1)
  }

  lemma {:induction false} PowPositive(x: real, n: nat)
    requires x > 0.0
    ensures Pow(x, n) > 0.0
  {
    if n > 0 {
      PowPositive(x, n - 1);
    }
  }

  lemma {:induction false} PowNonZero(x: real, n: nat)
    requires x != 0.0 || n == 0
    ensures Pow(x, n) != 0.0
  {
    if n > 0 {
      PowNonZero(x, n - 1);
    }
  }

  /** Raising to a fixed power is monotone on positive bases. */
  lemma {:induction false} PowMonotone(x: real, y: real, n: nat)
    requires 0.0 < x <= y
    ensures 0.0 < Pow(x, n) <= Pow(y, n)
  {
    if n > 0 {
      PowMonotone(x, y, n - 1);
      var px, py := Pow(x, n - 1), Pow(y, n - 1);
      assert x * px <= x * py;
      assert x * py <= y * py;
    }
  }

  /** `Math.pow(x, n)` for a whole exponent of either sign: a negative
      exponent gives the reciprocal of the matching positive power. */
  function IntPow(x: real, n: int): (p: real)
    requires n >= 0 || x != 0.0
    ensures n >= 0 ==> p == Pow(x, n)
    ensures n < 0 ==> p * Pow(x, -n) == 1.0
    ensures x != 0.0 ==> p != 0.0
  {
    if n < 0 then PowNonZero(x, -n); 1.0 / Pow(x, -n)
    else if x == 0.0 then Pow(x, n)
    else PowNonZero(x, n); Pow(x, n)
  }

  /** On positive bases a non-negative power rises with the base and a
      non-positive one falls with it. */
  lemma IntPowMonotone(x: real, y: real, n: int)
    requires 0.0 < x <= y
    ensures 0.0 < IntPow(x, n) && 0.0 < IntPow(y, n)
    ensures n >= 0 ==> IntPow(x, n) <= IntPow(y, n)
    ensures n <= 0 ==> IntPow(y, n) <= IntPow(x, n)
  {
    if n >= 0 {
      PowMonotone(x, y, n);
    } else {
      PowMonotone(x, y, -n);
      DivideByLarger(1.0, Pow(x, -n), Pow(y, -n));
    }
  }

  /** A non-negative amount divided by the larger of two positive divisors
      is the smaller quotient. */
  lemma DivideByLarger(a: real, p: real, q: real)
    requires a >= 0.0 && 0.0 < p <= q
    ensures a / q <= a / p
  {
    var x, y := a / p, a / q;
    assert x * p == a && y * q == a;
    assert y >= 0.0;
    assert y * p <= y * q;
    assert y * p <= x * p;
  }

  /** An amount `year` years out, discounted at `rate`. */
  function Discount(amount: real, rate: real, year: nat): (pv: real)
    requires 1.0 + rate != 0.0
    ensures pv * Pow(1.0 + rate, year) == amount
  {
    PowNonZero(1.0 + rate, year);
    amount / Pow(1.0 + rate, year)
  }

  /** A method result honours the range convention: a positive value lies
      inside its own range. */
  predicate Bracketed(r: MethodResult)
  {
    r.value > 0.0 ==> r.range.low <= r.value <= r.range.high
  }

  // ---------------------------------------------------------------------------
  // Berkus
  // ---------------------------------------------------------------------------

  function BerkusRawSum(i: BerkusInputs): real
  {
    i.soundIdea + i.prototype + i.managementTeam + i.strategicRelationships + i.productRollout
  }

  /** Berkus: the five factor amounts summed and capped at the Berkus total. */
  function CalculateBerkus(i: BerkusInputs): (r: MethodResult)
    ensures r.methodKey == Berkus
    ensures r.value <= BerkusMaxTotal && r.value <= BerkusRawSum(i)
    ensures r.value == BerkusRawSum(i) || r.value == BerkusMaxTotal
    ensures r.range.low == 0.8 * r.value && r.range.high == Min(1.2 * r.value, BerkusMaxTotal)
    ensures Bracketed(r)
    ensures (BerkusCapped in r.notes) <==> BerkusRawSum(i) > BerkusMaxTotal
    ensures (AssignBerkusFactors in r.notes) <==> r.value == 0.0
    ensures r.confidence == Medium <==> r.value > 0.0
    ensures r.confidence != High
  {
    var raw := BerkusRawSum(i);
    var value := Min(raw, BerkusMaxTotal);
    var notes :=
      (if raw > BerkusMaxTotal then [BerkusCapped] else [])
      + (if value == 0.0 then [AssignBerkusFactors] else []);
    MethodResult(
      Berkus, "Berkus Method", value,
      Range(value * 0.8, Min(value * 1.2, BerkusMaxTotal)),
      if value > 0.0 then Medium else Low,
      notes)
  }

  /** With non-negative factors the Berkus value lies in [0, cap] and its
      range is [0.8 value, high] with value <= high <= cap. */
  lemma BerkusBounds(i: BerkusInputs)
    requires i.soundIdea >= 0.0 && i.prototype >= 0.0 && i.managementTeam >= 0.0
    requires i.strategicRelationships >= 0.0 && i.productRollout >= 0.0
    ensures var r := CalculateBerkus(i);
      && 0.0 <= r.value <= BerkusMaxTotal
      && r.value == Min(BerkusRawSum(i), BerkusMaxTotal)
      && 0.8 * r.value == r.range.low <= r.value <= r.range.high <= BerkusMaxTotal
  {
  }

  // ---------------------------------------------------------------------------
  // Scorecard
  // ---------------------------------------------------------------------------

  /** The weighted sum of the seven category multipliers. */
  function Composite(i: ScorecardInputs): real
  {
    var w := ScorecardWeightTable;
    i.teamWeight * w.team
    + i.opportunityWeight * w.opportunitySize
    + i.productWeight * w.productTechnology
    + i.competitiveWeight * w.competitiveEnvironment
    + i.salesWeight * w.salesMarketing
    + i.additionalInvestmentWeight * w.additionalInvestment
    + i.otherWeight * w.other
  }

  /** Scorecard: the baseline valuation scaled by the composite multiplier. */
  function CalculateScorecard(i: ScorecardInputs): (r: MethodResult)
    ensures r.methodKey == Scorecard && r.confidence == Medium
    ensures r.value == i.comparableAvgValuation * Composite(i)
    ensures r.range == Range(0.85 * r.value, 1.15 * r.value)
    ensures Bracketed(r)
    ensures r.notes == [CompositeMultiplier(Composite(i))]
  {
    var composite := Composite(i);
    var value := i.comparableAvgValuation * composite;
    MethodResult(
      Scorecard, "Scorecard Method", value,
      Range(value * 0.85, value * 1.15),
      Medium,
      [CompositeMultiplier(composite)])
  }

  /** An average company (every multiplier 1.0) is valued at the baseline. */
  lemma ScorecardAverageIsBaseline(i: ScorecardInputs)
    requires i.teamWeight == i.opportunityWeight == i.productWeight == 1.0
    requires i.competitiveWeight == i.salesWeight == 1.0
    requires i.additionalInvestmentWeight == i.otherWeight == 1.0
    ensures CalculateScorecard(i).value == i.comparableAvgValuation
    ensures CalculateScorecard(i).range ==
      Range(0.85 * i.comparableAvgValuation, 1.15 * i.comparableAvgValuation)
  {
    ScorecardWeightsSumToOne();
  }

  /** With a non-negative baseline, raising any category multiplier never
      lowers the Scorecard value. */
  lemma ScorecardMonotone(a: ScorecardInputs, b: ScorecardInputs)
    requires a.comparableAvgValuation == b.comparableAvgValuation >= 0.0
    requires a.teamWeight <= b.teamWeight && a.opportunityWeight <= b.opportunityWeight
    requires a.productWeight <= b.productWeight && a.competitiveWeight <= b.competitiveWeight
    requires a.salesWeight <= b.salesWeight
    requires a.additionalInvestmentWeight <= b.additionalInvestmentWeight
    requires a.otherWeight <= b.otherWeight
    ensures CalculateScorecard(a).value <= CalculateScorecard(b).value
  {
    var base, ca, cb := a.comparableAvgValuation, Composite(a), Composite(b);
    assert ca <= cb;
    assert base * (cb - ca) >= 0.0;
    assert base * cb - base * ca == base * (cb - ca);
  }

  // ---------------------------------------------------------------------------
  // VC method
  // ---------------------------------------------------------------------------

  /** The three discount bases of the VC method are non-zero, so every
      division by their powers is defined (trivially so for a zero horizon). */
  predicate VCDivisionDefined(i: VCMethodInputs)
  {
    i.yearsToExit == 0
    || (1.0 + i.targetIRR != 0.0
        && 1.0 + i.targetIRR * 0.8 != 0.0
        && 1.0 + i.targetIRR * 1.2 != 0.0)
  }

  function VCTerminalValue(i: VCMethodInputs): real
  {
    i.projectedYear5Revenue * i.industryRevenueMultiple
  }

  /** The post-money valuation today that grows to the terminal value when
      compounded at `irr` over the holding period. */
  function VCPostMoney(i: VCMethodInputs, irr: real): (post: real)
    requires i.yearsToExit == 0 || 1.0 + irr != 0.0
    ensures post * IntPow(1.0 + irr, i.yearsToExit) == VCTerminalValue(i)
  {
    VCTerminalValue(i) / IntPow(1.0 + irr, i.yearsToExit)
  }

  /** Pre-money at a given required return: post-money less the investment,
      floored at zero. */
  function VCPreMoney(i: VCMethodInputs, irr: real): (pre: real)
    requires i.yearsToExit == 0 || 1.0 + irr != 0.0
    ensures pre >= 0.0 && pre >= VCPostMoney(i, irr) - i.investmentAmount
    ensures pre == 0.0 || pre + i.investmentAmount == VCPostMoney(i, irr)
  {
    Max(VCPostMoney(i, irr) - i.investmentAmount, 0.0)
  }

  /** VC method: value is the pre-money at the target IRR; the range uses a
      20% higher required return for its low end and a 20% lower one for its
      high end. */
  function CalculateVCMethod(i: VCMethodInputs): (r: MethodResult)
    requires VCDivisionDefined(i)
    ensures r.methodKey == VCMethod && r.confidence == Medium
    ensures r.value >= 0.0 && r.range.low >= 0.0 && r.range.high >= 0.0
    ensures r.value == VCPreMoney(i, i.targetIRR)
    ensures r.range == Range(VCPreMoney(i, i.targetIRR * 1.2), VCPreMoney(i, i.targetIRR * 0.8))
    ensures |r.notes| == 3 && r.notes[0] == TerminalValueNote(VCTerminalValue(i))
    ensures r.notes[1] == PostMoneyNote(VCPostMoney(i, i.targetIRR))
    ensures r.notes[2].InvestorOwnership?
    ensures r.notes[2].ownershipPercent.Some? <==> VCPostMoney(i, i.targetIRR) != 0.0
    ensures r.notes[2].ownershipPercent.Some? ==>
      r.notes[2].ownershipPercent.value * VCPostMoney(i, i.targetIRR) == 100.0 * i.investmentAmount
  {
    var terminalValue := VCTerminalValue(i);
    var postMoney := VCPostMoney(i, i.targetIRR);
    var preMoney := VCPreMoney(i, i.targetIRR);
    var ownership := if postMoney != 0.0 then Some(i.investmentAmount / postMoney * 100.0) else None;
    assert postMoney != 0.0 ==> i.investmentAmount / postMoney * 100.0 * postMoney == 100.0 * i.investmentAmount;
    var irrHigh := i.targetIRR * 0.8;
    var irrLow := i.targetIRR * 1.2;
    MethodResult(
      VCMethod, "VC Method (IRR-based)", preMoney,
      Range(VCPreMoney(i, irrLow), VCPreMoney(i, irrHigh)),
      Medium,
      [TerminalValueNote(terminalValue), PostMoneyNote(postMoney), InvestorOwnership(ownership)])
  }

  /** Over a non-negative horizon a higher required return never yields a
      higher pre-money, when the terminal value is non-negative; over a
      negative horizon the discount becomes compounding and the order flips. */
  lemma VCPreMoneyAntitone(i: VCMethodInputs, lo: real, hi: real)
    requires VCTerminalValue(i) >= 0.0
    requires 0.0 < 1.0 + lo <= 1.0 + hi
    ensures i.yearsToExit >= 0 ==> VCPreMoney(i, hi) <= VCPreMoney(i, lo)
    ensures i.yearsToExit <= 0 ==> VCPreMoney(i, lo) <= VCPreMoney(i, hi)
  {
    var n, tv := i.yearsToExit, VCTerminalValue(i);
    IntPowMonotone(1.0 + lo, 1.0 + hi, n);
    var pl, ph := IntPow(1.0 + lo, n), IntPow(1.0 + hi, n);
    if n >= 0 {
      DivideByLarger(tv, pl, ph);
    }
    if n <= 0 {
      DivideByLarger(tv, ph, pl);
    }
  }

  /** With a non-negative target IRR and terminal value, the inverted IRR
      sensitivity band brackets the value, low <= value <= high, whenever
      the horizon is non-negative. A negative whole horizon, which the
      calculator accepts, turns the band round: high <= value <= low. */
  lemma VCRangeBracketsValue(i: VCMethodInputs)
    requires i.targetIRR >= 0.0 && VCTerminalValue(i) >= 0.0
    ensures VCDivisionDefined(i)
    ensures var r := CalculateVCMethod(i);
      i.yearsToExit >= 0 ==> r.range.low <= r.value <= r.range.high
    ensures var r := CalculateVCMethod(i);
      i.yearsToExit <= 0 ==> r.range.high <= r.value <= r.range.low
  {
    VCPreMoneyAntitone(i, i.targetIRR, i.targetIRR * 1.2);
    VCPreMoneyAntitone(i, i.targetIRR * 0.8, i.targetIRR);
  }

  /** A horizon of -1 year: terminal value 100 at a 40% target IRR and
      nothing invested gives a value of 140 with the range 148 down to 132. */
  lemma NegativeHorizonInvertsBand()
    ensures var r := CalculateVCMethod(VCMethodInputs(100.0, 1.0, 0.4, 0.0, -1));
      r.value == 140.0 && r.range == Range(148.0, 132.0)
  {
    var i := VCMethodInputs(100.0, 1.0, 0.4, 0.0, -1);
    assert Pow(1.4, 1) == 1.4 && Pow(1.48, 1) == 1.48 && Pow(1.32, 1) == 1.32;
  }

  // ---------------------------------------------------------------------------
  // Rule of 40 and ARR multiples
  // ---------------------------------------------------------------------------

  /** The score band of a tier: at least its own threshold and below the
      threshold of the tier above. */
  predicate InTierBand(score: real, t: RuleOf40Tier)
  {
    var th := RuleOf40Thresholds;
    match t
    case Premium => th.premium <= score
    case Good => th.good <= score < th.premium
    case Average => th.average <= score < th.good
    case Below => score < th.average
  }

  /** Tiers in ascending order of score. */
  function TierRank(t: RuleOf40Tier): nat
  {
    match t
    case Below => 0
    case Average => 1
    case Good => 2
    case Premium => 3
  }

  /** Rule of 40: growth plus margin in percentage points, classified into
      the tier whose band contains it. */
  function CalculateRuleOf40(growthRate: real, profitMargin: real): (r: RuleOf40Result)
    ensures r.score == 100.0 * (growthRate + profitMargin)
    ensures InTierBand(r.score, r.tier)
    ensures r.suggestedMultiple == TierMultiple(r.tier)
    ensures r.passes <==> r.tier == Premium || r.tier == Good
  {
    var score := growthRate * 100.0 + profitMargin * 100.0;
    var tier :=
      if score >= RuleOf40Thresholds.premium then Premium
      else if score >= RuleOf40Thresholds.good then Good
      else if score >= RuleOf40Thresholds.average then Average
      else Below;
    RuleOf40Result(score, score >= 40.0, tier, TierMultiple(tier))
  }

  /** Tier bands are disjoint: a score lies in exactly one tier's band. */
  lemma TierBandsExclusive(score: real, t1: RuleOf40Tier, t2: RuleOf40Tier)
    requires InTierBand(score, t1) && InTierBand(score, t2)
    ensures t1 == t2
  {
  }

  /** A higher score never earns a lower tier or a smaller multiple. */
  lemma RuleOf40Monotone(g1: real, m1: real, g2: real, m2: real)
    requires g1 + m1 <= g2 + m2
    ensures TierRank(CalculateRuleOf40(g1, m1).tier) <= TierRank(CalculateRuleOf40(g2, m2).tier)
    ensures CalculateRuleOf40(g1, m1).suggestedMultiple <= CalculateRuleOf40(g2, m2).suggestedMultiple
  {
  }

  /** `custom ?? suggested`: a present override is used even when it is 0. */
  function EffectiveMultiple(custom: Option<real>, suggested: real): (m: real)
    ensures custom.Some? ==> m == custom.value
    ensures custom.None? ==> m == suggested
  {
    custom.GetOr(suggested)
  }

  /** ARR multiples: ARR times the override or the Rule-of-40 multiple, with a
      +/-25% range. */
  function CalculateArrMultiples(i: ArrMultiplesInputs): (r: MethodResult)
    ensures r.methodKey == ArrMultiples && r.confidence == High
    ensures var rof40 := CalculateRuleOf40(i.revenueGrowthRate, i.netProfitMargin);
      && (i.customMultiple.Some? ==> r.value == i.currentARR * i.customMultiple.value)
      && (i.customMultiple.None? ==> r.value == i.currentARR * rof40.suggestedMultiple)
      && |r.notes| == 2
      && r.notes[0] == RuleOf40Score(rof40.score, rof40.tier)
    ensures r.range == Range(0.75 * r.value, 1.25 * r.value)
    ensures Bracketed(r)
  {
    var rof40 := CalculateRuleOf40(i.revenueGrowthRate, i.netProfitMargin);
    var multiple := EffectiveMultiple(i.customMultiple, rof40.suggestedMultiple);
    var value := i.currentARR * multiple;
    MethodResult(
      ArrMultiples, "ARR / Revenue Multiples", value,
      Range(i.currentARR * (multiple * 0.75), i.currentARR * (multiple * 1.25)),
      High,
      [RuleOf40Score(rof40.score, rof40.tier), AppliedMultiple(multiple)])
  }

  // ---------------------------------------------------------------------------
  // Discounted cash flow
  // ---------------------------------------------------------------------------

  /** The discount base 1 + WACC is non-zero whenever the DCF branch that
      divides by its powers is taken. */
  predicate DcfDivisionDefined(i: DcfInputs)
  {
    i.wacc <= i.terminalGrowthRate || 1.0 + i.wacc != 0.0
  }

  /** Each flow discounted by its 1-based year, as the source maps the flows. */
  function PresentValues(flows: seq<real>, rate: real): (pvs: seq<real>)
    requires 1.0 + rate != 0.0
    ensures |pvs| == |flows|
    ensures forall k :: 0 <= k < |flows| ==> pvs[k] * Pow(1.0 + rate, k + 1) == flows[k]
  {
    seq(|flows|, k requires 0 <= k < |flows| => Discount(flows[k], rate, k + 1))
  }

  /** Gordon-growth terminal value at the end of year 5. */
  function DcfTerminalValue(i: DcfInputs): (tv: real)
    requires i.wacc > i.terminalGrowthRate
    ensures tv * (i.wacc - i.terminalGrowthRate) == i.freeCashFlows.y5 * (1.0 + i.terminalGrowthRate)
  {
    (i.freeCashFlows.y5 * (1.0 + i.terminalGrowthRate)) / (i.wacc - i.terminalGrowthRate)
  }

  /** DCF: present value of the five flows plus the discounted terminal value,
      floored at zero; a soft failure when WACC does not exceed growth. */
  function CalculateDcf(i: DcfInputs): (r: MethodResult)
    requires DcfDivisionDefined(i)
    ensures r.methodKey == Dcf
    ensures r.confidence == Low <==> i.wacc <= i.terminalGrowthRate
    ensures i.wacc <= i.terminalGrowthRate ==>
      r.value == 0.0 && r.range == Range(0.0, 0.0) && r.notes == [WaccNotAboveGrowth]
    ensures i.wacc > i.terminalGrowthRate ==>
      && r.confidence == High
      && r.value == Max(Sum(PresentValues(i.freeCashFlows.AsSeq(), i.wacc))
                        + Discount(DcfTerminalValue(i), i.wacc, 5), 0.0)
      && r.range == Range(0.75 * r.value, 1.35 * r.value)
      && |r.notes| == 3
    ensures r.value >= 0.0 && r.range.low <= r.value <= r.range.high
  {
    if i.wacc <= i.terminalGrowthRate then
      MethodResult(Dcf, "DCF", 0.0, Range(0.0, 0.0), Low, [WaccNotAboveGrowth])
    else
      var sumPV := Sum(PresentValues(i.freeCashFlows.AsSeq(), i.wacc));
      var pvTerminal := Discount(DcfTerminalValue(i), i.wacc, 5);
      var ev := Max(sumPV + pvTerminal, 0.0);
      var tvShare := if ev > 0.0 then pvTerminal / ev * 100.0 else 0.0;
      MethodResult(
        Dcf, "Discounted Cash Flow (DCF)", ev,
        Range(ev * 0.75, ev * 1.35),
        High,
        [PresentValueOfFlows(sumPV), PresentValueOfTerminal(pvTerminal), TerminalShareOfValue(tvShare)])
  }

  /** The closed-form enterprise value: each year's flow over (1+WACC)^year,
      plus FCF5 (1+g) / (WACC - g) over (1+WACC)^5, floored at zero. */
  function DcfClosedForm(i: DcfInputs): real
    requires i.wacc > i.terminalGrowthRate && 1.0 + i.wacc != 0.0
  {
    var f := i.freeCashFlows;
    var b := 1.0 + i.wacc;
    PowNonZero(b, 1); PowNonZero(b, 2); PowNonZero(b, 3); PowNonZero(b, 4); PowNonZero(b, 5);
    var explicit := f.y1 / Pow(b, 1) + f.y2 / Pow(b, 2) + f.y3 / Pow(b, 3)
                    + f.y4 / Pow(b, 4) + f.y5 / Pow(b, 5);
    var terminal := (f.y5 * (1.0 + i.terminalGrowthRate)) / (i.wacc - i.terminalGrowthRate);
    Max(explicit + terminal / Pow(b, 5), 0.0)
  }

  /** The map-and-reduce over the flows computes the closed-form value. */
  lemma DcfEnterpriseValue(i: DcfInputs)
    requires i.wacc > i.terminalGrowthRate && 1.0 + i.wacc != 0.0
    ensures CalculateDcf(i).value == DcfClosedForm(i)
  {
    var f := i.freeCashFlows;
    var pvs := PresentValues(f.AsSeq(), i.wacc);
    assert pvs == [Discount(f.y1, i.wacc, 1), Discount(f.y2, i.wacc, 2), Discount(f.y3, i.wacc, 3),
                   Discount(f.y4, i.wacc, 4), Discount(f.y5, i.wacc, 5)];
    SumOfFive(pvs[0], pvs[1], pvs[2], pvs[3], pvs[4]);
  }

  /** When WACC does not exceed terminal growth the cash flows are ignored:
      every projection yields the same zero-value, low-confidence result. */
  lemma DcfSoftFailureIgnoresFlows(i: DcfInputs, flows: CashFlows)
    requires i.wacc <= i.terminalGrowthRate
    ensures CalculateDcf(i) == CalculateDcf(i.(freeCashFlows := flows))
    ensures CalculateDcf(i) == MethodResult(Dcf, "DCF", 0.0, Range(0.0, 0.0), Low, [WaccNotAboveGrowth])
  {
  }

  // ---------------------------------------------------------------------------
  // Comparable company analysis
  // ---------------------------------------------------------------------------

  /** The three implied values: EV from revenue always, EV from EBITDA only
      for positive EBITDA, equity from P/E only for positive net income. */
  function ComparableCandidates(i: ComparableCompanyInputs): (c: seq<Option<real>>)
    ensures |c| == 3
    ensures c[0] == Some(i.annualRevenue * i.evRevenueMultiple)
    ensures c[1].Some? <==> i.ebitda > 0.0
    ensures c[1].Some? ==> c[1].value == i.ebitda * i.evEbitdaMultiple
    ensures c[2].Some? <==> i.netIncome > 0.0
    ensures c[2].Some? ==> c[2].value == i.netIncome * i.peMultiple
  {
    [ Some(i.annualRevenue * i.evRevenueMultiple),
      if i.ebitda > 0.0 then Some(i.ebitda * i.evEbitdaMultiple) else None,
      if i.netIncome > 0.0 then Some(i.netIncome * i.peMultiple) else None ]
  }

  /** The present, positive candidates, in order. */
  function PositiveValues(cs: seq<Option<real>>): (vs: seq<real>)
    ensures |vs| <= |cs|
    ensures forall x :: x in vs <==> Some(x) in cs && x > 0.0
    ensures forall k :: 0 <= k < |vs| ==> vs[k] > 0.0
  {
    if |cs| == 0 then []
    else
      var rest := PositiveValues(cs[1..]);
      assert forall o :: o in cs <==> o == cs[0] || o in cs[1..];
      if cs[0].Some? && cs[0].value > 0.0 then [cs[0].value] + rest else rest
  }

  /** The filter keeps every positive candidate as often as it occurs, so
      equal candidates each weigh in the mean. */
  lemma {:induction false} PositiveValuesCounts(cs: seq<Option<real>>)
    ensures forall x :: multiset(PositiveValues(cs))[x] == if x > 0.0 then multiset(cs)[Some(x)] else 0
  {
    if |cs| > 0 {
      PositiveValuesCounts(cs[1..]);
      assert cs == [cs[0]] + cs[1..];
      assert multiset(cs) == multiset([cs[0]]) + multiset(cs[1..]);
    }
  }

  /** The note describing an optional candidate: JavaScript truthiness treats
      an absent candidate and a zero one alike. */
  function CandidateNote(c: Option<real>, implied: real -> Note, notApplicable: Note): Note
  {
    if c.Some? && c.value != 0.0 then implied(c.value) else notApplicable
  }

  /** Comparable company: the mean of the positive candidates, ranged by
      their minimum and maximum; all zero when no candidate is positive. */
  function CalculateComparableCompany(i: ComparableCompanyInputs): (r: MethodResult)
    ensures r.methodKey == ComparableCompany && r.confidence == High
    ensures var vs := PositiveValues(ComparableCandidates(i));
      && (|vs| == 0 ==> r.value == 0.0 && r.range == Range(0.0, 0.0))
      && (|vs| > 0 ==> r.value == Mean(vs) && r.range == Range(MinOf(vs), MaxOf(vs)))
      && (r.value > 0.0 <==> |vs| > 0)
    ensures r.value >= 0.0 && r.range.low <= r.value <= r.range.high
    ensures |r.notes| == 3 && r.notes[0] == EvRevenueImplied(i.annualRevenue * i.evRevenueMultiple)
  {
    var c := ComparableCandidates(i);
    var vs := PositiveValues(c);
    var value := if |vs| > 0 then Mean(vs) else 0.0;
    if |vs| > 0 then
      MeanBetweenMinAndMax(vs);
      PositiveMean(vs);
      MethodResult(
        ComparableCompany, "Comparable Company Analysis", value,
        Range(MinOf(vs), MaxOf(vs)),
        High,
        [EvRevenueImplied(i.annualRevenue * i.evRevenueMultiple),
         CandidateNote(c[1], x => EvEbitdaImplied(x), EvEbitdaNotApplicable),
         CandidateNote(c[2], x => PeImplied(x), PeNotApplicable)])
    else
      MethodResult(
        ComparableCompany, "Comparable Company Analysis", value,
        Range(0.0, 0.0),
        High,
        [EvRevenueImplied(i.annualRevenue * i.evRevenueMultiple),
         CandidateNote(c[1], x => EvEbitdaImplied(x), EvEbitdaNotApplicable),
         CandidateNote(c[2], x => PeImplied(x), PeNotApplicable)])
  }

  /** Without positive EBITDA or net income only the revenue multiple
      counts: the value is EV/Revenue times revenue (when positive) and the
      range collapses onto it. */
  lemma ComparableRevenueOnly(i: ComparableCompanyInputs)
    requires i.ebitda <= 0.0 && i.netIncome <= 0.0
    ensures var r := CalculateComparableCompany(i);
      && r.value == Max(i.annualRevenue * i.evRevenueMultiple, 0.0)
      && r.range == Range(r.value, r.value)
  {
    var c := ComparableCandidates(i);
    var ev := c[0].value;
    assert ev == i.annualRevenue * i.evRevenueMultiple;
    assert c == [Some(ev), None, None];
    SingleCandidate(ev);
    SingletonFolds(ev);
  }

  /** One present candidate followed by two absent ones leaves just that
      candidate when it is positive, and nothing otherwise. */
  lemma SingleCandidate(ev: real)
    ensures PositiveValues([Some(ev), None, None]) == if ev > 0.0 then [ev] else []
  {
    var c := [Some(ev), None, None];
    assert c[1..] == [None, None] && c[1..][1..] == [None] && c[1..][1..][1..] == [];
    assert PositiveValues(c[1..][1..]) == [];
    assert PositiveValues(c[1..]) == [];
  }

  // ---------------------------------------------------------------------------
  // Aggregation
  // ---------------------------------------------------------------------------

  /** The results with a positive value, in order. */
  function ValidResults(rs: seq<MethodResult>): (v: seq<MethodResult>)
    ensures |v| <= |rs|
    ensures forall x :: x in v <==> x in rs && x.value > 0.0
  {
    if |rs| == 0 then []
    else
      var rest := ValidResults(rs[1..]);
      assert forall x :: x in rs <==> x == rs[0] || x in rs[1..];
      if rs[0].value > 0.0 then [rs[0]] + rest else rest
  }

  /** The filter keeps every positive result as often as it occurs, so
      repeated results each weigh in the midpoint. */
  lemma {:induction false} ValidResultsCounts(rs: seq<MethodResult>)
    ensures forall x :: multiset(ValidResults(rs))[x] == if x.value > 0.0 then multiset(rs)[x] else 0
  {
    if |rs| > 0 {
      ValidResultsCounts(rs[1..]);
      assert rs == [rs[0]] + rs[1..];
      assert multiset(rs) == multiset([rs[0]]) + multiset(rs[1..]);
    }
  }

  function Lows(v: seq<MethodResult>): (s: seq<real>)
    ensures |s| == |v| && forall k :: 0 <= k < |v| ==> s[k] == v[k].range.low
  {
    seq(|v|, k requires 0 <= k < |v| => v[k].range.low)
  }

  function Highs(v: seq<MethodResult>): (s: seq<real>)
    ensures |s| == |v| && forall k :: 0 <= k < |v| ==> s[k] == v[k].range.high
  {
    seq(|v|, k requires 0 <= k < |v| => v[k].range.high)
  }

  function Values(v: seq<MethodResult>): (s: seq<real>)
    ensures |s| == |v| && forall k :: 0 <= k < |v| ==> s[k] == v[k].value
  {
    seq(|v|, k requires 0 <= k < |v| => v[k].value)
  }

  /** The aggregate of a stage's results: the lowest low, highest high and
      mean value over the positive results, all zero when there are none;
      the full method list is kept as given. */
  function AggregateResults(stage: StageSlug, results: seq<MethodResult>): (r: ValuationResults)
    ensures r.stage == stage && r.methods == results
    ensures (forall x :: x in results ==> x.value <= 0.0) ==>
      r.aggregateLow == 0.0 && r.aggregateHigh == 0.0 && r.aggregateMidpoint == 0.0
    ensures forall x :: x in results && x.value > 0.0 ==>
      r.aggregateLow <= x.range.low && x.range.high <= r.aggregateHigh
    ensures (exists x :: x in results && x.value > 0.0) ==>
      && (exists x :: x in results && x.value > 0.0 && x.range.low == r.aggregateLow)
      && (exists x :: x in results && x.value > 0.0 && x.range.high == r.aggregateHigh)
      && r.aggregateMidpoint == Mean(Values(ValidResults(results)))
  {
    var valid := ValidResults(results);
    if |valid| > 0 then
      var lows, highs := Lows(valid), Highs(valid);
      assert forall x :: x in valid ==> MinOf(lows) <= x.range.low && x.range.high <= MaxOf(highs) by {
        forall x | x in valid
          ensures MinOf(lows) <= x.range.low && x.range.high <= MaxOf(highs)
        {
          var k :| 0 <= k < |valid| && valid[k] == x;
          assert lows[k] == x.range.low && highs[k] == x.range.high;
        }
      }
      var lo := MinOf(lows);
      var hi := MaxOf(highs);
      var kl :| 0 <= kl < |lows| && lows[kl] == lo;
      var kh :| 0 <= kh < |highs| && highs[kh] == hi;
      assert valid[kl] in valid && valid[kh] in valid;
      ValuationResults(stage, results, lo, hi, Mean(Values(valid)))
    else
      assert forall x :: x in results ==> x.value <= 0.0;
      ValuationResults(stage, results, 0.0, 0.0, 0.0)
  }

  /** With exactly one positive result, the aggregate is that result's own
      range and value, whether or not the range is ordered. */
  lemma AggregateOfSingleValid(stage: StageSlug, results: seq<MethodResult>, m: MethodResult)
    requires ValidResults(results) == [m]
    ensures var r := AggregateResults(stage, results);
      r.aggregateLow == m.range.low && r.aggregateMidpoint == m.value
      && r.aggregateHigh == m.range.high
  {
    assert Lows([m]) == [m.range.low] && Highs([m]) == [m.range.high];
    assert Values([m]) == [m.value];
    SingletonFolds(m.range.low);
    SingletonFolds(m.range.high);
    SingletonFolds(m.value);
  }

  /** If every positive result lies inside its own range, the aggregate
      midpoint lies inside the aggregate range. */
  lemma AggregateOrdered(stage: StageSlug, results: seq<MethodResult>)
    requires forall x :: x in results ==> Bracketed(x)
    ensures var r := AggregateResults(stage, results);
      r.aggregateLow <= r.aggregateMidpoint <= r.aggregateHigh
  {
    var valid := ValidResults(results);
    if |valid| > 0 {
      var lows, values, highs := Lows(valid), Values(valid), Highs(valid);
      assert forall k :: 0 <= k < |valid| ==> lows[k] <= values[k] <= highs[k] by {
        forall k | 0 <= k < |valid| ensures lows[k] <= values[k] <= highs[k] {
          assert valid[k] in valid;
        }
      }
      PointwiseMinMax(lows, values);
      PointwiseMinMax(values, highs);
      MeanBetweenMinAndMax(values);
    }
  }

  // ---------------------------------------------------------------------------
  // Offer evaluation
  // ---------------------------------------------------------------------------

  /** Verdicts in ascending order of offer-to-fair ratio. */
  function VerdictRank(v: Verdict): nat
  {
    match v
    case SignificantlyUndervalued => 0
    case Undervalued => 1
    case Fair => 2
    case Overvalued => 3
    case SignificantlyOvervalued => 4
  }

  /** The ratio band of each verdict, closed below and open above. */
  predicate InVerdictBand(ratio: real, v: Verdict)
  {
    match v
    case SignificantlyOvervalued => 1.25 <= ratio
    case Overvalued => 1.1 <= ratio < 1.25
    case Fair => 0.9 <= ratio < 1.1
    case Undervalued => 0.75 <= ratio < 0.9
    case SignificantlyUndervalued => ratio < 0.75
  }

  /** The five-way verdict: the band, scanned from the top, that holds the ratio. */
  function DeriveVerdict(ratio: real): (v: Verdict)
    ensures InVerdictBand(ratio, v)
  {
    if ratio >= 1.25 then SignificantlyOvervalued
    else if ratio >= 1.1 then Overvalued
    else if ratio >= 0.9 then Fair
    else if ratio >= 0.75 then Undervalued
    else SignificantlyUndervalued
  }

  /** Verdict bands do not overlap. */
  lemma VerdictBandsExclusive(ratio: real, v1: Verdict, v2: Verdict)
    requires InVerdictBand(ratio, v1) && InVerdictBand(ratio, v2)
    ensures v1 == v2
  {
  }

  /** A higher ratio never earns a lower verdict. */
  lemma VerdictMonotone(r1: real, r2: real)
    requires r1 <= r2
    ensures VerdictRank(DeriveVerdict(r1)) <= VerdictRank(DeriveVerdict(r2))
  {
  }

  /** Each breakpoint belongs to the band above it. */
  lemma VerdictBreakpoints()
    ensures DeriveVerdict(1.25) == SignificantlyOvervalued
    ensures DeriveVerdict(1.24999) == Overvalued
    ensures DeriveVerdict(1.1) == Overvalued
    ensures DeriveVerdict(0.9) == Fair
    ensures DeriveVerdict(0.8999) == Undervalued
    ensures DeriveVerdict(0.75) == Undervalued
    ensures DeriveVerdict(0.7499) == SignificantlyUndervalued
  {
  }

  /** The excessive-dilution ceiling of a stage, 20% when the table lacks it. */
  function DilutionThreshold(stage: StageSlug): (t: real)
    ensures t >= 0.0
    ensures stage in ExcessiveDilutionTable && t == ExcessiveDilutionTable[stage]
  {
    ExcessiveDilutionNonIncreasing();
    if stage in ExcessiveDilutionTable then ExcessiveDilutionTable[stage] else 20.0
  }

  datatype Flags = Flags(redFlags: seq<RedFlag>, greenFlags: seq<GreenFlag>)

  /** `[x]` when `c` holds and `[]` otherwise: a flag pushed under a rule. */
  function PushIf<T(!new)>(c: bool, x: T): (s: seq<T>)
    ensures forall y :: y in s <==> c && y == x
    ensures |s| <= 1
  {
    if c then [x] else []
  }

  /** The position of each red flag's rule in the evaluator's checks. */
  function RedRank(f: RedFlag): nat
  {
    match f
    case BelowFairRange => 0
    case ExcessiveDilution(_, _) => 1
    case VeryHighImpliedIRR(_) => 2
  }

  /** The position of each green flag's rule in the evaluator's checks. */
  function GreenRank(f: GreenFlag): nat
  {
    match f
    case WithinFairRange => 0
    case ComfortableDilution(_) => 1
    case MarketStandardIRR(_) => 2
    case AboveFairRange => 3
  }

  /** The red flags: the offer below the fair range, dilution above the
      stage ceiling, an implied IRR above 50%. Each fires exactly when its
      rule holds, nothing else is raised, and the flags come in the order the
      rules are checked, each at most once. */
  function RedFlags(pre: real, fair: Range, dilution: real, threshold: real, impliedIRR: real)
    : (fs: seq<RedFlag>)
    ensures BelowFairRange in fs <==> pre < fair.low
    ensures ExcessiveDilution(dilution, threshold) in fs <==> dilution > threshold
    ensures VeryHighImpliedIRR(impliedIRR) in fs <==> impliedIRR > 0.5
    ensures forall x :: x in fs ==>
      x == BelowFairRange || x == ExcessiveDilution(dilution, threshold) || x == VeryHighImpliedIRR(impliedIRR)
    ensures |fs| <= 3
    ensures RedInRuleOrder(fs)
  {
    PushIf(pre < fair.low, BelowFairRange)
    + PushIf(dilution > threshold, ExcessiveDilution(dilution, threshold))
    + PushIf(impliedIRR > 0.5, VeryHighImpliedIRR(impliedIRR))
  }

  /** The green flags: the offer within or above the fair range, dilution
      at most three quarters of the ceiling, an implied IRR of 20%-35%. Each
      fires exactly when its rule holds, nothing else is raised, and at most
      one flag per rule is raised. */
  function GreenFlags(pre: real, fair: Range, dilution: real, threshold: real, impliedIRR: real)
    : (fs: seq<GreenFlag>)
    ensures WithinFairRange in fs <==> fair.low <= pre <= fair.high
    ensures ComfortableDilution(dilution) in fs <==> dilution <= threshold * 0.75
    ensures MarketStandardIRR(impliedIRR) in fs <==> 0.2 <= impliedIRR <= 0.35
    ensures AboveFairRange in fs <==> pre > fair.high
    ensures forall x :: x in fs ==>
      || x == WithinFairRange || x == ComfortableDilution(dilution)
      || x == MarketStandardIRR(impliedIRR) || x == AboveFairRange
    ensures |fs| <= 4
  {
    PushIf(fair.low <= pre && pre <= fair.high, WithinFairRange)
    + PushIf(dilution <= threshold * 0.75, ComfortableDilution(dilution))
    + PushIf(impliedIRR >= 0.2 && impliedIRR <= 0.35, MarketStandardIRR(impliedIRR))
    + PushIf(pre > fair.high, AboveFairRange)
  }

  /** Red flags in strictly increasing rule position. */
  predicate RedInRuleOrder(fs: seq<RedFlag>)
  {
    forall i, j :: 0 <= i < j < |fs| ==> RedRank(fs[i]) < RedRank(fs[j])
  }

  /** Green flags in strictly increasing rule position. */
  predicate GreenInRuleOrder(fs: seq<GreenFlag>)
  {
    forall i, j :: 0 <= i < j < |fs| ==> GreenRank(fs[i]) < GreenRank(fs[j])
  }

  /** The green flags come in the order the rules are checked, each at most once. */
  lemma GreenFlagsInRuleOrder(pre: real, fair: Range, dilution: real, threshold: real, impliedIRR: real)
    ensures GreenInRuleOrder(GreenFlags(pre, fair, dilution, threshold, impliedIRR))
  {
    var fs := GreenFlags(pre, fair, dilution, threshold, impliedIRR);
    forall i, j | 0 <= i < j < |fs| ensures GreenRank(fs[i]) < GreenRank(fs[j]) {
      assert fs[i] in fs && fs[j] in fs;
    }
  }

  /** Red and green flags of an offer, each rule evaluated independently
      against the stage's dilution ceiling. */
  function DeriveFlags(offer: OfferInputs, fair: Range, dilution: real, impliedIRR: real,
                       stage: StageSlug): Flags
  {
    var pre := offer.proposedPreMoney;
    var threshold := DilutionThreshold(stage);
    Flags(RedFlags(pre, fair, dilution, threshold, impliedIRR),
          GreenFlags(pre, fair, dilution, threshold, impliedIRR))
  }

  /** For a proper fair range exactly one of the three range flags fires:
      below it (red), within it (green) or above it (green). */
  lemma RangeFlagsExactlyOne(offer: OfferInputs, fair: Range, dilution: real, impliedIRR: real,
                             stage: StageSlug)
    requires fair.low <= fair.high
    ensures var f := DeriveFlags(offer, fair, dilution, impliedIRR, stage);
      var below, within, above :=
        BelowFairRange in f.redFlags, WithinFairRange in f.greenFlags, AboveFairRange in f.greenFlags;
      (below || within || above) && !(below && within) && !(below && above) && !(within && above)
  {
  }

  /** The excessive-dilution red flag and the comfortable-dilution green flag
      never fire together. */
  lemma DilutionFlagsExclusive(offer: OfferInputs, fair: Range, dilution: real, impliedIRR: real,
                               stage: StageSlug)
    ensures var f := DeriveFlags(offer, fair, dilution, impliedIRR, stage);
      !(ExcessiveDilution(dilution, DilutionThreshold(stage)) in f.redFlags
        && ComfortableDilution(dilution) in f.greenFlags)
  {
  }

  /** The very-high-IRR red flag and the market-standard-IRR green flag never
      fire together. */
  lemma IrrFlagsExclusive(offer: OfferInputs, fair: Range, dilution: real, impliedIRR: real,
                          stage: StageSlug)
    ensures var f := DeriveFlags(offer, fair, dilution, impliedIRR, stage);
      !(VeryHighImpliedIRR(impliedIRR) in f.redFlags && MarketStandardIRR(impliedIRR) in f.greenFlags)
  {
  }

  /** At the exit stage the ceiling is 0%, so any positive dilution is
      flagged as excessive and none is comfortable. */
  lemma ExitStageFlagsAnyDilution(offer: OfferInputs, fair: Range, dilution: real, impliedIRR: real)
    requires dilution > 0.0
    ensures var f := DeriveFlags(offer, fair, dilution, impliedIRR, AcquisitionIpo);
      ExcessiveDilution(dilution, 0.0) in f.redFlags && ComfortableDilution(dilution) !in f.greenFlags
  {
  }

  /** The holding period the offer evaluator assumes. */
  const DefaultYearsToExit: nat := 5

  /** `part` as a percentage of `whole`. */
  function PercentOf(part: real, whole: real): (p: real)
    requires whole != 0.0
    ensures p * whole == 100.0 * part
  {
    part / whole * 100.0
  }

  /** The percentages of two parts of a whole add up to 100. */
  lemma PercentsComplement(part: real, rest: real, whole: real)
    requires whole == part + rest && whole != 0.0
    ensures PercentOf(part, whole) + PercentOf(rest, whole) == 100.0
  {
    assert part / whole + rest / whole == whole / whole;
  }

  /** A part strictly inside a positive whole is strictly between 0% and 100% of it. */
  lemma PercentStrictlyBetween(part: real, whole: real)
    requires 0.0 < part < whole
    ensures 0.0 < PercentOf(part, whole) < 100.0
  {
    var q := part / whole;
    assert q > 0.0;
    ScaledBounds(0.0, part, 1.0, whole);
    assert q != 1.0 by {
      assert 1.0 * whole == whole;
    }
  }

  /** The offered pre-money over the fair midpoint, or 1 when the midpoint is
      not positive. */
  function OfferRatio(preMoney: real, fairMidpoint: real): (ratio: real)
    ensures fairMidpoint <= 0.0 ==> ratio == 1.0
    ensures fairMidpoint > 0.0 ==> ratio == preMoney / fairMidpoint && ratio * fairMidpoint == preMoney
  {
    if fairMidpoint > 0.0 then preMoney / fairMidpoint else 1.0
  }

  /** The annualised return that turns `investment` into `exitValue` over
      the holding period; 0 when nothing is invested. */
  function ImpliedIRR(investment: real, exitValue: real, yearsToExit: nat,
                      power: (real, real) -> real): (irr: real)
    requires yearsToExit > 0
    ensures investment <= 0.0 ==> irr == 0.0
    ensures investment > 0.0 ==>
      irr + 1.0 == power(exitValue / investment, 1.0 / (yearsToExit as real))
  {
    if investment > 0.0
    then power(exitValue / investment, 1.0 / (yearsToExit as real)) - 1.0
    else 0.0
  }

  /** What the investor's stake is worth at exit: their share of the
      founder's own fair midpoint, not of any projected exit value. */
  function InvestorExitValue(dilutionPercent: real, fairMidpoint: real): (v: real)
    ensures 100.0 * v == dilutionPercent * fairMidpoint
  {
    dilutionPercent / 100.0 * fairMidpoint
  }

  /** Grades an offer against a fair range. `power(x, e)` stands for
      `Math.pow(x, e)` with a fractional exponent, which the model leaves to
      the caller. */
  function EvaluateOffer(offer: OfferInputs, fair: Range, stage: StageSlug, yearsToExit: nat,
                         power: (real, real) -> real): (r: OfferEvaluationResult)
    requires offer.proposedPreMoney + offer.investmentAmount != 0.0
    requires yearsToExit > 0
    ensures r.proposedPreMoney == offer.proposedPreMoney && r.fairValueRange == fair
    ensures r.postMoney == offer.proposedPreMoney + offer.investmentAmount
    ensures r.dilutionPercent == PercentOf(offer.investmentAmount, r.postMoney)
    ensures r.founderRetainedPercent == PercentOf(offer.proposedPreMoney, r.postMoney)
    ensures r.dilutionPercent + r.founderRetainedPercent == 100.0
    ensures var mid := (fair.low + fair.high) / 2.0;
      && (mid <= 0.0 ==> r.verdict == Fair)
      && (mid > 0.0 ==> InVerdictBand(offer.proposedPreMoney / mid, r.verdict))
    ensures offer.investmentAmount <= 0.0 ==> r.impliedIRR == 0.0
    ensures r.impliedIRR == ImpliedIRR(offer.investmentAmount,
      InvestorExitValue(r.dilutionPercent, (fair.low + fair.high) / 2.0), yearsToExit, power)
    ensures Flags(r.redFlags, r.greenFlags) ==
      DeriveFlags(offer, fair, r.dilutionPercent, r.impliedIRR, stage)
  {
    var postMoney := offer.proposedPreMoney + offer.investmentAmount;
    var dilutionPercent := PercentOf(offer.investmentAmount, postMoney);
    PercentsComplement(offer.investmentAmount, offer.proposedPreMoney, postMoney);
    var fairMidpoint := (fair.low + fair.high) / 2.0;
    var ratio := OfferRatio(offer.proposedPreMoney, fairMidpoint);
    var investorExitValue := InvestorExitValue(dilutionPercent, fairMidpoint);
    var impliedIRR := ImpliedIRR(offer.investmentAmount, investorExitValue, yearsToExit, power);
    var flags := DeriveFlags(offer, fair, dilutionPercent, impliedIRR, stage);
    OfferEvaluationResult(
      offer.proposedPreMoney, postMoney, fair, DeriveVerdict(ratio),
      dilutionPercent, 100.0 - dilutionPercent, impliedIRR,
      flags.redFlags, flags.greenFlags)
  }

  /** A 1M investment at a 5M pre-money against a 4M-6M fair range: post-money
      6M, dilution one sixth, ratio exactly 1 and a fair verdict. */
  lemma OfferScenario(power: (real, real) -> real)
    ensures var r := EvaluateOffer(OfferInputs(1_000_000.0, 5_000_000.0),
                                   Range(4_000_000.0, 6_000_000.0), Seed, DefaultYearsToExit, power);
      && r.postMoney == 6_000_000.0
      && r.dilutionPercent == 100.0 / 6.0
      && r.verdict == Fair
      && WithinFairRange in r.greenFlags
  {
  }
}
