/** The input validators of foundervalue/lib/schemas.ts as predicates over
    the calculator input records, with what each one guarantees about the
    calculator it guards. Of these only the offer validator is attached to
    a form; the valuation form runs its calculators on unvalidated input,
    which is why the calculators themselves are modelled as total. */
module Schemas {
  import opened Types
  import opened Constants
  import opened Valuations
  import opened ValuationForm

  predicate Within(x: real, lo: real, hi: real)
  {
    lo <= x <= hi
  }

  // ---------------------------------------------------------------------------
  // Berkus
  // ---------------------------------------------------------------------------

  /** Each factor between 0 and 500,000. */
  predicate BerkusValid(i: BerkusInputs)
  {
    && Within(i.soundIdea, 0.0, 500_000.0)
    && Within(i.prototype, 0.0, 500_000.0)
    && Within(i.managementTeam, 0.0, 500_000.0)
    && Within(i.strategicRelationships, 0.0, 500_000.0)
    && Within(i.productRollout, 0.0, 500_000.0)
  }

  /** Valid Berkus inputs never reach the total cap: the value is the raw
      sum and the cap note is never attached. */
  lemma BerkusSchemaNeverCaps(i: BerkusInputs)
    requires BerkusValid(i)
    ensures 0.0 <= BerkusRawSum(i) <= BerkusMaxTotal
    ensures CalculateBerkus(i).value == BerkusRawSum(i)
    ensures BerkusCapped !in CalculateBerkus(i).notes
  {
  }

  /** The cap is reachable only outside the validator, and one factor above
      the total cap, with the others non-negative, is enough to trip it. */
  lemma BerkusCapNeedsInvalidInput(i: BerkusInputs)
    ensures BerkusCapped in CalculateBerkus(i).notes ==> !BerkusValid(i)
    ensures var factors := [i.soundIdea, i.prototype, i.managementTeam,
                            i.strategicRelationships, i.productRollout];
      (forall k :: 0 <= k < 5 ==> factors[k] >= 0.0)
      && (exists k :: 0 <= k < 5 && factors[k] > BerkusMaxTotal)
      ==> !BerkusValid(i) && BerkusCapped in CalculateBerkus(i).notes
  {
    if BerkusValid(i) {
      BerkusSchemaNeverCaps(i);
    }
    var factors := [i.soundIdea, i.prototype, i.managementTeam,
                    i.strategicRelationships, i.productRollout];
    if (forall k :: 0 <= k < 5 ==> factors[k] >= 0.0)
       && (exists k :: 0 <= k < 5 && factors[k] > BerkusMaxTotal)
    {
      var k :| 0 <= k < 5 && factors[k] > BerkusMaxTotal;
      assert factors[0] >= 0.0 && factors[1] >= 0.0 && factors[2] >= 0.0
        && factors[3] >= 0.0 && factors[4] >= 0.0;
      assert BerkusRawSum(i) >= factors[k];
    }
  }

  /** Failing the validator does not by itself trip the cap: a single
      factor of 600,000 is invalid but sums to well below 2,500,000. */
  lemma BerkusInvalidBelowCap()
    ensures var i := BerkusInputs(600_000.0, 0.0, 0.0, 0.0, 0.0);
      !BerkusValid(i) && BerkusCapped !in CalculateBerkus(i).notes
  {
  }

  // ---------------------------------------------------------------------------
  // Scorecard
  // ---------------------------------------------------------------------------

  /** A baseline between $100K and $100M and each category multiplier
      between 0 and 2. */
  predicate ScorecardValid(i: ScorecardInputs)
  {
    && Within(i.comparableAvgValuation, 100_000.0, 100_000_000.0)
    && Within(i.teamWeight, 0.0, 2.0)
    && Within(i.opportunityWeight, 0.0, 2.0)
    && Within(i.productWeight, 0.0, 2.0)
    && Within(i.competitiveWeight, 0.0, 2.0)
    && Within(i.salesWeight, 0.0, 2.0)
    && Within(i.additionalInvestmentWeight, 0.0, 2.0)
    && Within(i.otherWeight, 0.0, 2.0)
  }

  /** Under the validator the composite lies in [0, 2], so the value lies
      between 0 and twice the baseline, at most $200M. */
  lemma ScorecardSchemaBounds(i: ScorecardInputs)
    requires ScorecardValid(i)
    ensures Within(Composite(i), 0.0, 2.0)
    ensures var v := CalculateScorecard(i).value;
      0.0 <= v <= 2.0 * i.comparableAvgValuation <= 200_000_000.0
  {
    var b, c := i.comparableAvgValuation, Composite(i);
    assert 0.0 <= b * c by {
      assert b > 0.0 && c >= 0.0;
    }
    assert b * c <= b * 2.0 by {
      assert b * (2.0 - c) >= 0.0;
    }
  }

  // ---------------------------------------------------------------------------
  // VC method
  // ---------------------------------------------------------------------------

  /** Year-5 revenue at least 1, a 1x-50x multiple, a 5%-99% target IRR, at
      least $10K invested and a whole 1-15 year horizon. */
  predicate VCMethodValid(i: VCMethodInputs)
  {
    && i.projectedYear5Revenue >= 1.0
    && Within(i.industryRevenueMultiple, 1.0, 50.0)
    && Within(i.targetIRR, 0.05, 0.99)
    && i.investmentAmount >= 10_000.0
    && 1 <= i.yearsToExit <= 15
  }

  /** Under the validator every division of the VC method is defined: the
      terminal and post-money values are positive, so the ownership share is
      a number, and the IRR band brackets the value. */
  lemma VCSchemaWellDefined(i: VCMethodInputs)
    requires VCMethodValid(i)
    ensures VCDivisionDefined(i)
    ensures VCTerminalValue(i) >= 1.0
    ensures VCPostMoney(i, i.targetIRR) > 0.0
    ensures CalculateVCMethod(i).notes[2].ownershipPercent.Some?
    ensures var r := CalculateVCMethod(i); r.range.low <= r.value <= r.range.high
  {
    var tv := VCTerminalValue(i);
    ProductAtLeast(i.projectedYear5Revenue, i.industryRevenueMultiple, 1.0, 1.0);
    VCRangeBracketsValue(i);
    var p := IntPow(1.0 + i.targetIRR, i.yearsToExit);
    IntPowMonotone(1.0 + i.targetIRR, 1.0 + i.targetIRR, i.yearsToExit);
    PositiveFactor(VCPostMoney(i, i.targetIRR), p, tv);
  }

  /** A factor of a positive product with a positive cofactor is positive. */
  lemma PositiveFactor(x: real, p: real, product: real)
    requires p > 0.0 && x * p == product && product > 0.0
    ensures x > 0.0
  {
    assert x == product / p;
  }

  // ---------------------------------------------------------------------------
  // ARR multiples
  // ---------------------------------------------------------------------------

  /** ARR at least 1, growth 0-1000%, margin -500%-100% and an optional
      custom multiple of 1x-100x. */
  predicate ArrMultiplesValid(i: ArrMultiplesInputs)
  {
    && i.currentARR >= 1.0
    && Within(i.revenueGrowthRate, 0.0, 10.0)
    && Within(i.netProfitMargin, -5.0, 1.0)
    && (i.customMultiple.Some? ==> Within(i.customMultiple.value, 1.0, 100.0))
  }

  /** A valid custom multiple is never zero, so dropping falsy overrides (as
      the valuation form does) and keeping every present one (as the
      calculator does) pick the same multiple. */
  lemma ArrSchemaExcludesZeroOverride(i: ArrMultiplesInputs)
    requires ArrMultiplesValid(i)
    ensures i.customMultiple != Some(0.0)
    ensures CalculateArrMultiples(i)
         == CalculateArrMultiples(i.(customMultiple := OrUndefined(i.customMultiple)))
  {
  }

  // ---------------------------------------------------------------------------
  // DCF
  // ---------------------------------------------------------------------------

  /** Any five flows, a 1%-50% WACC and a 0%-10% terminal growth rate. */
  predicate DcfValid(i: DcfInputs)
  {
    && Within(i.wacc, 0.01, 0.5)
    && Within(i.terminalGrowthRate, 0.0, 0.1)
  }

  /** Valid DCF inputs always have a defined discount, yet the two ranges
      overlap, so valid inputs can still reach the soft-failure branch. */
  lemma DcfSchemaAllowsSoftFailure(i: DcfInputs)
    requires DcfValid(i)
    ensures DcfDivisionDefined(i)
    ensures var w := DcfInputs(i.freeCashFlows, 0.05, 0.1);
      DcfValid(w) && CalculateDcf(w).value == 0.0 && CalculateDcf(w).confidence == Low
  {
  }

  // ---------------------------------------------------------------------------
  // Comparable company
  // ---------------------------------------------------------------------------

  /** Revenue at least 1, any EBITDA and net income, and multiples within
      0.1x-100x (revenue), 0.1x-200x (EBITDA) and 0.1x-500x (earnings). */
  predicate ComparableValid(i: ComparableCompanyInputs)
  {
    && i.annualRevenue >= 1.0
    && Within(i.evRevenueMultiple, 0.1, 100.0)
    && Within(i.evEbitdaMultiple, 0.1, 200.0)
    && Within(i.peMultiple, 0.1, 500.0)
  }

  /** Under the validator the revenue candidate is positive, so the
      comparable-company value is positive and lies inside its range. */
  lemma ComparableSchemaPositive(i: ComparableCompanyInputs)
    requires ComparableValid(i)
    ensures var r := CalculateComparableCompany(i);
      r.value > 0.0 && r.range.low <= r.value <= r.range.high
  {
    var c := ComparableCandidates(i);
    var ev := i.annualRevenue * i.evRevenueMultiple;
    ProductAtLeast(i.annualRevenue, i.evRevenueMultiple, 1.0, 0.1);
    assert c[0].Some?;
    assert c[0].value == ev;
    assert Some(ev) in c;
    assert ev in PositiveValues(c);
  }

  // ---------------------------------------------------------------------------
  // Offer
  // ---------------------------------------------------------------------------

  /** Both the investment and the proposed pre-money at least $1K. */
  predicate OfferValid(o: OfferInputs)
  {
    o.investmentAmount >= 1_000.0 && o.proposedPreMoney >= 1_000.0
  }

  /** Under the validator the post-money is at least $2K and the investor
      takes a share strictly between 0% and 100%. */
  lemma OfferSchemaBounds(o: OfferInputs, fair: Range, stage: StageSlug, yearsToExit: nat,
                          power: (real, real) -> real)
    requires OfferValid(o) && yearsToExit > 0
    ensures var r := EvaluateOffer(o, fair, stage, yearsToExit, power);
      && r.postMoney >= 2_000.0
      && 0.0 < r.dilutionPercent < 100.0
      && 0.0 < r.founderRetainedPercent < 100.0
  {
    PercentStrictlyBetween(o.investmentAmount, o.proposedPreMoney + o.investmentAmount);
    PercentStrictlyBetween(o.proposedPreMoney, o.proposedPreMoney + o.investmentAmount);
  }

  /** Products of lower-bounded non-negative factors are bounded below by
      the product of the bounds. */
  lemma ProductAtLeast(a: real, b: real, la: real, lb: real)
    requires 0.0 <= la <= a && 0.0 <= lb <= b
    ensures la * lb <= a * b
  {
    assert a * b - la * lb == (a - la) * b + la * (b - lb);
  }
}
