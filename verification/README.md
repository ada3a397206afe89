# FounderValue valuation engine in Dafny

FounderValue values a startup with the methods that suit its funding
stage. The project models the engine behind it.

The engine has three parts:

- Six calculators, each a pure function from an input record to a method
  result (value, low/high range, confidence, notes):
  - Berkus, a sum of five risk-reduction factors capped at $2.5M;
  - Scorecard, a baseline times a weighted composite multiplier;
  - the VC method, which discounts a terminal value at a target IRR;
  - ARR multiples driven by the Rule of 40;
  - a five-year DCF with a Gordon-growth terminal value;
  - comparable-company multiples.
- The aggregator. It merges the results of one stage into a fair-value
  range and midpoint.
- The offer evaluator. It grades a proposed pre-money against that range:
  post-money, dilution, a five-way verdict, and independent red/green flag
  rules.

The static tables are also modelled: the stage registry, the Berkus caps,
the Scorecard weights, the Rule-of-40 tiers, the target IRRs, the industry
multiples and the dilution ceilings. So are:

- the zod input schemas, as validity predicates;
- the pure logic of the valuation form: the per-stage defaults, the
  per-stage sections, and the dispatch from a stage to the calculators it
  runs.

Everything is exact `real` arithmetic over immutable datatypes.

Files and modules:

| file | module | models |
|---|---|---|
| `types.dfy` | `Types` | the records of `lib/types.ts` |
| `seqs.dfy` | `Seqs` | sum, mean, `Math.min(...xs)` and `Math.max(...xs)` over real sequences |
| `constants.dfy` | `Constants` | `lib/constants.ts` |
| `valuations.dfy` | `Valuations` | `lib/valuations.ts` |
| `valuation_form.dfy` | `ValuationForm` | `getDefaults`, `STAGE_SECTIONS` and `computeResults` of `components/tool/ValuationForm.tsx` |
| `schemas.dfy` | `Schemas` | `lib/schemas.ts` |

Modelling choices:

- **Notes are tags.** A calculator's notes are tags carrying the figures
  the note would print, e.g. `PostMoneyNote(postMoney)`.
- **Flags are tags too.** Red and green flags are tags; the dilution flags
  carry the dilution and the threshold.
- **Integer powers.** `Math.pow(b, n)` with a natural exponent is the
  recursive `Pow(b, n)`. The VC method's exponent, its horizon, may have
  either sign, so it uses `IntPow(b, n)`: `Pow` for a non-negative `n` and
  the reciprocal `1 / Pow(b, -n)` for a negative one.
- **The DCF flows.** The five flows are the record `CashFlows`, so the
  tuple always has five entries.
- **The `??` of the ARR calculator.** `Option.GetOr` models it: a present
  override of 0 is used.
- **The `||` of the form.** `OrUndefined` models it: a zero override is
  dropped.
- **Default overrides.** `getDefaults` spreads an override object over a
  common record. The model lists each stage's overrides as tagged values
  (`SetWacc(0.12)`, …) and folds them onto the common record with
  `ApplyAll`.
- **The form record.** The form's flat record is `FormData`, which groups
  the fields by calculator. The form's field names are exactly the fields
  of the six input records, and no two clash.
- **Dispatch.** `computeResults` is a chain of six `if` blocks, each of
  which pushes one calculator's result. The model has three parts:
  - `Runs(s, k)` is the condition of block `k`;
  - `RunOrder(s)` is the list of calculators whose block fires, in chain
    order (`RunOrderFiltersChain` proves this);
  - `StageMethods` maps `RunCalculator` over that list.
- **No validation.** The valuation form attaches no validator, and its own
  defaults (`currentARR: 0`, `annualRevenue: 0`) break the schemas. The
  calculators are therefore total over well-typed inputs. Their only
  requires keep their divisions defined. The schemas are separate
  predicates, with lemmas stating what each one guarantees about the
  calculator it guards.

Three behaviours of the source are stated as lemmas rather than changed:

- **Sections and calculators run in different orders.** Pre-seed and seed
  list their sections in registry order (Berkus then Scorecard, VC method
  then Scorecard). The calculators run Scorecard first.
  `SectionsInRegistryOrder` and `PreSeedRunsScorecardFirst` state both
  orders.
- **The exit-stage ceiling is 0%.** So every positive dilution is flagged
  as excessive at that stage (`ExitStageFlagsAnyDilution`).
- **A negative horizon turns the VC band round.** The form checks nothing,
  so a negative whole `yearsToExit` reaches the VC method. `Math.pow` then
  compounds instead of discounting, and the band runs high to low:
  `VCRangeBracketsValue` states both orientations,
  `NegativeHorizonInvertsBand` gives the -1 year case (value 140, range
  148 down to 132), and `SeedNegativeHorizonInvertsAggregate` shows the
  seed aggregate coming out inverted from it.

## Model

| member | source | states |
|---|---|---|
| Constants.StageSlugs | foundervalue/lib/constants.ts:3-10 | the six stage slugs, each listed once |
| Constants.StageIndex | foundervalue/lib/constants.ts:3-10 | every slug occurs in the slug list, at the returned position |
| Constants.Stages | foundervalue/lib/constants.ts:12-67 | six registry entries whose slugs follow the slug list in order; each has a non-empty list of distinct method keys and 0 < typicalRange.min < typicalRange.max |
| Constants.StageInfo | foundervalue/lib/constants.ts:12-67 | the registry entry of a stage carries that stage's slug and is one of the registry's entries |
| Constants.EveryMethodUsed | foundervalue/lib/constants.ts:12-67 | every method key is listed by at least one stage |
| Constants.BerkusCapsConsistent | foundervalue/lib/constants.ts:69-70 | the Berkus total cap is five times the per-factor cap |
| Constants.ScorecardWeightsSumToOne | foundervalue/lib/constants.ts:72-80 | the seven Scorecard weights are non-negative and sum to exactly 1 |
| Constants.RuleOf40TablesOrdered | foundervalue/lib/constants.ts:82-93 | thresholds fall strictly (60 > 40 > 20) and multiples fall strictly (15 > 10 > 7 > 5 > 0) |
| Constants.VcTargetIrrDecreasing | foundervalue/lib/constants.ts:95-102 | every stage has a target IRR in (0, 1), strictly decreasing along stage order |
| Constants.IndustryMultiples | foundervalue/lib/constants.ts:104-130 | for every industry and metric, 0 < p25 <= median <= p75 |
| Constants.ExcessiveDilutionNonIncreasing | foundervalue/lib/constants.ts:133-140 | every stage has a non-negative dilution ceiling, non-increasing along stage order |
| Seqs.MinOf | foundervalue/lib/valuations.ts:250 | the minimum of a non-empty list is one of its elements and no element is below it |
| Seqs.MaxOf | foundervalue/lib/valuations.ts:251 | the maximum of a non-empty list is one of its elements and no element is above it |
| Seqs.MeanBetweenMinAndMax | foundervalue/lib/valuations.ts:230-251 | the mean of a non-empty list lies between its minimum and its maximum |
| Valuations.Pow | foundervalue/lib/valuations.ts:86 | `Math.pow` with a whole exponent, as repeated multiplication (no contract of its own; the two lemmas below state its properties) |
| Valuations.PowPositive | foundervalue/lib/valuations.ts:86 | a positive base has a positive power |
| Valuations.PowMonotone | foundervalue/lib/valuations.ts:93-98 | a larger positive base never has a smaller power |
| Valuations.Discount | foundervalue/lib/valuations.ts:187 | a discounted amount compounded back over the same years gives the original amount |
| Valuations.CalculateBerkus | foundervalue/lib/valuations.ts:27-51 | value is the raw sum or the cap, never above either; low is 0.8·value and high is min(1.2·value, cap); the cap note appears iff the raw sum exceeds the cap; the prompt note appears iff value is 0; confidence is medium iff value > 0 |
| Valuations.BerkusBounds | foundervalue/lib/valuations.ts:27-51 | with non-negative factors, value = min(raw sum, 2.5M) and 0.8·value = low <= value <= high <= 2.5M |
| Valuations.CalculateScorecard | foundervalue/lib/valuations.ts:57-76 | value is the baseline times the weighted composite; range is [0.85·value, 1.15·value]; confidence is medium |
| Valuations.ScorecardAverageIsBaseline | foundervalue/lib/valuations.ts:57-76 | with every multiplier 1 the value is exactly the baseline and the range is [0.85, 1.15] times the baseline |
| Valuations.ScorecardMonotone | foundervalue/lib/valuations.ts:58-67 | with a non-negative baseline, raising any multiplier never lowers the value |
| Valuations.IntPow | foundervalue/lib/valuations.ts:86 | `Math.pow` with a whole exponent of either sign: the natural power for a non-negative exponent, the reciprocal of the opposite power for a negative one, and non-zero on a non-zero base |
| Valuations.IntPowMonotone | foundervalue/lib/valuations.ts:86-101 | on positive bases the power is positive, rises with the base for a non-negative exponent and falls with it for a non-positive one |
| Valuations.VCPostMoney | foundervalue/lib/valuations.ts:85-86 | the post-money compounded at the IRR over the holding period grows to the terminal value |
| Valuations.VCPreMoney | foundervalue/lib/valuations.ts:87 | pre-money is non-negative; it is 0 or it plus the investment is the post-money |
| Valuations.CalculateVCMethod | foundervalue/lib/valuations.ts:82-114 | value and both range bounds are non-negative pre-money values: at the target IRR, at 1.2 times it (low end) and at 0.8 times it (high end); the ownership note is present iff post-money is non-zero, and then ownership · post-money = 100 · investment |
| Valuations.VCPreMoneyAntitone | foundervalue/lib/valuations.ts:90-101 | for required returns above -100% and a non-negative terminal value, a higher required return never gives a higher pre-money over a non-negative horizon, and never a lower one over a non-positive horizon (the form checks neither hypothesis) |
| Valuations.VCRangeBracketsValue | foundervalue/lib/valuations.ts:90-107 | with a non-negative target IRR and terminal value, the inverted sensitivity band gives low <= value <= high over a non-negative horizon and high <= value <= low over a non-positive one |
| Valuations.NegativeHorizonInvertsBand | foundervalue/lib/valuations.ts:82-107 | terminal value 100, IRR 0.4, no investment and a horizon of -1 year give value 140 with low 148 and high 132 |
| Valuations.CalculateRuleOf40 | foundervalue/lib/valuations.ts:120-143 | score = 100·(growth + margin); the tier is the one whose band contains the score; the multiple is that tier's; passes iff the tier is premium or good |
| Valuations.TierBandsExclusive | foundervalue/lib/valuations.ts:128-140 | no score lies in two tier bands |
| Valuations.RuleOf40Monotone | foundervalue/lib/valuations.ts:124-140 | a higher growth-plus-margin never earns a lower tier or a smaller multiple |
| Valuations.EffectiveMultiple | foundervalue/lib/valuations.ts:150 | a present custom multiple is used whatever its value, including 0; otherwise the suggested one |
| Valuations.CalculateArrMultiples | foundervalue/lib/valuations.ts:148-167 | value is ARR times the custom multiple when present, otherwise times the Rule-of-40 multiple; range is [0.75·value, 1.25·value]; confidence is high |
| Valuations.PresentValues | foundervalue/lib/valuations.ts:186-188 | each flow's present value compounded over its 1-based year gives back the flow |
| Valuations.DcfTerminalValue | foundervalue/lib/valuations.ts:191-193 | terminal value · (WACC − g) = year-5 flow · (1 + g) |
| Valuations.CalculateDcf | foundervalue/lib/valuations.ts:172-212 | confidence is low exactly in the soft-failure case WACC <= g, which gives value 0, range [0,0] and the error note; otherwise EV = max(sum of present values + discounted terminal value, 0) with range [0.75·EV, 1.35·EV]; in both cases 0 <= value and it is bracketed |
| Valuations.DcfEnterpriseValue | foundervalue/lib/valuations.ts:186-196 | the map-and-reduce over the flows equals the closed form Σ fcfᵢ/(1+WACC)^i + (fcf₅(1+g)/(WACC−g))/(1+WACC)^5, floored at 0 |
| Valuations.DcfSoftFailureIgnoresFlows | foundervalue/lib/valuations.ts:175-184 | when WACC <= g the result does not depend on the cash flows |
| Valuations.ComparableCandidates | foundervalue/lib/valuations.ts:220-224 | the revenue candidate always exists; the EBITDA candidate exists iff EBITDA > 0; the P/E candidate exists iff net income > 0 |
| Valuations.PositiveValues | foundervalue/lib/valuations.ts:226-228 | exactly the present, positive candidates are kept, and there are at most as many as candidates |
| Valuations.PositiveValuesCounts | foundervalue/lib/valuations.ts:226-228 | each positive value is kept as many times as it occurs among the candidates and no other value occurs, so equal candidates each weigh in the mean |
| Valuations.CalculateComparableCompany | foundervalue/lib/valuations.ts:217-256 | value is the mean of the positive candidates and range is their [min, max], all 0 when there are none; value > 0 iff some candidate is positive; low <= value <= high |
| Valuations.ComparableRevenueOnly | foundervalue/lib/valuations.ts:220-251 | without positive EBITDA or net income, value = max(revenue · multiple, 0) and the range collapses onto it |
| Valuations.ValidResults | foundervalue/lib/valuations.ts:265 | exactly the results with a positive value are kept |
| Valuations.ValidResultsCounts | foundervalue/lib/valuations.ts:265 | each positive result is kept as many times as it occurs in the input and no other result occurs, so repeated results each weigh in the midpoint |
| Valuations.AggregateResults | foundervalue/lib/valuations.ts:261-283 | methods are passed through unchanged; with no positive result all three figures are 0; otherwise every positive result's range lies within [aggregateLow, aggregateHigh], both bounds are attained by some positive result, and the midpoint is the mean of the positive values |
| Valuations.AggregateOfSingleValid | foundervalue/lib/valuations.ts:265-280 | with exactly one positive result, the aggregate low, midpoint and high are that result's low, value and high |
| Valuations.AggregateOrdered | foundervalue/lib/valuations.ts:265-280 | if every positive result lies inside its own range, aggregateLow <= midpoint <= aggregateHigh |
| Valuations.DeriveVerdict | foundervalue/lib/valuations.ts:330-336 | the verdict is the one whose ratio band contains the ratio |
| Valuations.VerdictBandsExclusive | foundervalue/lib/valuations.ts:330-336 | no ratio lies in two verdict bands |
| Valuations.VerdictMonotone | foundervalue/lib/valuations.ts:330-336 | a higher ratio never earns a lower verdict |
| Valuations.VerdictBreakpoints | foundervalue/lib/valuations.ts:331-334 | each breakpoint 1.25, 1.1, 0.9, 0.75 belongs to the band above it |
| Valuations.DilutionThreshold | foundervalue/lib/valuations.ts:347 | every stage has a table entry, so the fallback 20 is never used, and the ceiling is non-negative |
| Valuations.RedFlags | foundervalue/lib/valuations.ts:349-363 | below-range fires iff pre < low; excessive dilution fires iff dilution > ceiling; very high IRR fires iff IRR > 0.5; no other red flag is raised; the flags come in the order the rules are checked, each at most once |
| Valuations.GreenFlags | foundervalue/lib/valuations.ts:365-385 | within-range fires iff low <= pre <= high; comfortable dilution fires iff dilution <= 0.75·ceiling; market-standard IRR fires iff 0.2 <= IRR <= 0.35; above-range fires iff pre > high; no other green flag is raised; at most four flags |
| Valuations.GreenFlagsInRuleOrder | foundervalue/lib/valuations.ts:365-385 | the green flags come in the order the rules are checked, each at most once |
| Valuations.DeriveFlags | foundervalue/lib/valuations.ts:338-388 | the red and green flags of an offer under the stage's dilution ceiling (no contract of its own; the four lemmas below state its properties) |
| Valuations.RangeFlagsExactlyOne | foundervalue/lib/valuations.ts:349-385 | for low <= high exactly one of below-range, within-range and above-range fires |
| Valuations.DilutionFlagsExclusive | foundervalue/lib/valuations.ts:354-375 | the excessive and comfortable dilution flags never fire together |
| Valuations.IrrFlagsExclusive | foundervalue/lib/valuations.ts:359-380 | the very-high and market-standard IRR flags never fire together |
| Valuations.ExitStageFlagsAnyDilution | foundervalue/lib/valuations.ts:347-375 | at the exit stage any positive dilution is flagged excessive and never comfortable |
| Valuations.PercentOf | foundervalue/lib/valuations.ts:295 | the percentage times the whole is 100 times the part |
| Valuations.PercentsComplement | foundervalue/lib/valuations.ts:295-296 | the percentages of two parts of a whole sum to 100 |
| Valuations.OfferRatio | foundervalue/lib/valuations.ts:298-299 | with a positive fair midpoint, ratio · midpoint = pre-money; otherwise the ratio is 1 |
| Valuations.InvestorExitValue | foundervalue/lib/valuations.ts:301-302 | the investor's exit value is their dilution share of the founder's own fair midpoint: 100 · exit value = dilution% · midpoint |
| Valuations.ImpliedIRR | foundervalue/lib/valuations.ts:302-306 | 0 when nothing is invested; otherwise 1 + IRR is the holding-period root of exit value over investment |
| Valuations.EvaluateOffer | foundervalue/lib/valuations.ts:288-328 | post-money = pre + investment; dilution and retained are the two parts' percentages of post-money and sum to 100; the verdict is fair when the fair midpoint <= 0 and otherwise lies in the band of pre/midpoint; the implied IRR is the holding-period return on the investor's dilution share of the fair midpoint, and 0 with no investment; the flags are the independent flag rules |
| Valuations.OfferScenario | foundervalue/lib/valuations.ts:288-328 | a 1M investment at 5M pre against a 4M-6M range gives post-money 6M, dilution 100/6 %, a fair verdict and the within-range flag |
| ValuationForm.CommonDefaults | foundervalue/components/tool/ValuationForm.tsx:27-48 | the common default record, field for field (data, no contract) |
| ValuationForm.StageOverrides | foundervalue/components/tool/ValuationForm.tsx:50-59 | each stage's override object as a list of keyed values (data, no contract) |
| ValuationForm.Defaults | foundervalue/components/tool/ValuationForm.tsx:26-62 | the common record with the stage's overrides spread over it (no contract of its own; DefaultsOverrideOnlyListed states it) |
| ValuationForm.Apply | foundervalue/components/tool/ValuationForm.tsx:61 | spreading one override sets its field and leaves every other field unchanged |
| ValuationForm.ApplyAllSpec | foundervalue/components/tool/ValuationForm.tsx:61 | spreading a list of overrides leaves unlisted fields unchanged and gives each listed field the last value given for it |
| ValuationForm.StageOverridesDistinct | foundervalue/components/tool/ValuationForm.tsx:50-59 | no stage's override object sets a key twice |
| ValuationForm.DefaultsOverrideOnlyListed | foundervalue/components/tool/ValuationForm.tsx:26-62 | a stage's defaults equal the common record except on the keys the stage lists, which take the listed values |
| ValuationForm.PreSeedDefaultsAreCommon | foundervalue/components/tool/ValuationForm.tsx:50-61 | the pre-seed defaults are exactly the common record |
| ValuationForm.EarlyStageRates | foundervalue/components/tool/ValuationForm.tsx:44-52 | pre-seed, seed and Series A keep WACC 0.15 and terminal growth 0.03 |
| ValuationForm.LateStageRates | foundervalue/components/tool/ValuationForm.tsx:53-58 | Series B/C, growth and exit defaults keep WACC above a non-negative terminal growth |
| ValuationForm.DefaultsWaccAboveGrowth | foundervalue/components/tool/ValuationForm.tsx:44-58 | at every stage the default WACC exceeds the default terminal growth, which is non-negative |
| ValuationForm.DefaultsAvoidDcfSoftFailure | foundervalue/components/tool/ValuationForm.tsx:44-58 | a DCF run on any stage's untouched defaults is defined and gives high confidence, not the soft failure |
| ValuationForm.OrUndefined | foundervalue/components/tool/ValuationForm.tsx:144 | the override is dropped iff it is absent or 0; otherwise it is kept as given |
| ValuationForm.Runs | foundervalue/components/tool/ValuationForm.tsx:106-165 | the condition of each calculator's `if` block (no contract) |
| ValuationForm.RunOrder | foundervalue/components/tool/ValuationForm.tsx:106-165 | the calculators each stage runs, in run order (no contract; RunOrderFiltersChain states it) |
| ValuationForm.RunOrderFiltersChain | foundervalue/components/tool/ValuationForm.tsx:106-165 | a stage runs exactly the calculators whose `if` condition holds, in the order of the `if` chain |
| ValuationForm.RunCalculator | foundervalue/components/tool/ValuationForm.tsx:106-165 | each block's result reports that block's method key |
| ValuationForm.StageMethods | foundervalue/components/tool/ValuationForm.tsx:104-165 | one result per calculator the stage runs, in run order, each reporting that calculator's key |
| ValuationForm.RunOrderMatchesRegistry | foundervalue/components/tool/ValuationForm.tsx:106-165 | the calculators a stage runs are, as a set and in number, the methods its registry entry lists |
| ValuationForm.StageMethodsMatchRegistry | foundervalue/components/tool/ValuationForm.tsx:104-165 | the results' keys are exactly the stage's registry methods, one result per method |
| ValuationForm.ComputeResults | foundervalue/components/tool/ValuationForm.tsx:103-168 | the results carry the requested stage and one method result per registry method of that stage |
| ValuationForm.StageSections | foundervalue/components/tool/ValuationForm.tsx:74-97 | each stage's sections with their ids, titles and subtitles (data, no contract; the three lemmas below state its properties) |
| ValuationForm.SectionIdsResolve | foundervalue/components/tool/ValuationForm.tsx:74-97 | each section id names its own calculator |
| ValuationForm.SectionsInRegistryOrder | foundervalue/components/tool/ValuationForm.tsx:74-97 | a stage's sections name its registry methods, position by position |
| ValuationForm.SectionsMatchCalculators | foundervalue/components/tool/ValuationForm.tsx:74-97 | every section names a calculator, and a stage's sections name exactly the calculators it runs, one section each |
| ValuationForm.PreSeedRunsScorecardFirst | foundervalue/components/tool/ValuationForm.tsx:106-127 | pre-seed computes Scorecard then Berkus, the reverse of its registry order |
| ValuationForm.ZeroCustomMultipleFallsBack | foundervalue/components/tool/ValuationForm.tsx:139-146 | through the form, a zero custom multiple falls back to the Rule-of-40 multiple; called directly it values the company at 0 |
| ValuationForm.ComputeResultsOrdered | foundervalue/components/tool/ValuationForm.tsx:103-168 | for any stage aggregateLow <= midpoint <= aggregateHigh; at seed this needs a non-negative target IRR, terminal value and horizon, none of which the form checks (SeedNegativeHorizonInvertsAggregate shows the horizon is needed) |
| ValuationForm.SeedMethods | foundervalue/components/tool/ValuationForm.tsx:106-138 | at seed the form's results are the Scorecard result and then the VC result |
| ValuationForm.SeedNegativeHorizonInvertsAggregate | foundervalue/components/tool/ValuationForm.tsx:103-168 | at seed, a zero Scorecard baseline and the -1 year VC case give aggregate low 148, midpoint 140 and high 132 |
| ValuationForm.RunCalculatorBracketed | foundervalue/components/tool/ValuationForm.tsx:106-165 | every calculator the form runs returns a value inside its own range when positive; for the VC method this holds given a non-negative target IRR and terminal value and a non-negative horizon, and over a negative horizon its band runs high <= value <= low instead (the form validates none of these) |
| Schemas.BerkusValid | foundervalue/lib/schemas.ts:6-12 | the Berkus validator: each factor in [0, 500,000] (predicate) |
| Schemas.BerkusSchemaNeverCaps | foundervalue/lib/schemas.ts:6-12 | under the validator the raw sum is at most the cap, the value equals it and the cap note never appears |
| Schemas.BerkusCapNeedsInvalidInput | foundervalue/lib/schemas.ts:6-12 | the cap note appears only on input the validator rejects, and any input with one factor above the 2.5M total cap and no negative factor is rejected and trips the cap |
| Schemas.BerkusInvalidBelowCap | foundervalue/lib/schemas.ts:6-12 | the converse fails: a single factor of 600,000 is rejected yet stays below the cap, so no cap note appears |
| Schemas.ScorecardValid | foundervalue/lib/schemas.ts:18-30 | the Scorecard validator: baseline in [100K, 100M], each multiplier in [0, 2] (predicate) |
| Schemas.ScorecardSchemaBounds | foundervalue/lib/schemas.ts:18-30 | under the validator the composite lies in [0, 2] and 0 <= value <= 2·baseline <= 200M |
| Schemas.VCMethodValid | foundervalue/lib/schemas.ts:36-49 | the VC validator: revenue >= 1, multiple in [1, 50], IRR in [0.05, 0.99], investment >= 10K, a whole 1-15 year horizon (predicate) |
| Schemas.VCSchemaWellDefined | foundervalue/lib/schemas.ts:36-49 | under the validator every division is defined, terminal value >= 1, post-money > 0, the ownership note is present and the range brackets the value |
| Schemas.ArrMultiplesValid | foundervalue/lib/schemas.ts:55-60 | the ARR validator: ARR >= 1, growth in [0, 10], margin in [-5, 1], an optional multiple in [1, 100] (predicate) |
| Schemas.ArrSchemaExcludesZeroOverride | foundervalue/lib/schemas.ts:55-60 | under the validator the override is never 0, so the form's `||` and the calculator's `??` agree |
| Schemas.DcfValid | foundervalue/lib/schemas.ts:66-79 | the DCF validator: any five flows, WACC in [0.01, 0.5], growth in [0, 0.1] (predicate) |
| Schemas.DcfSchemaAllowsSoftFailure | foundervalue/lib/schemas.ts:66-79 | valid inputs keep the discount defined, yet WACC 5% with growth 10% is valid and hits the soft failure |
| Schemas.ComparableValid | foundervalue/lib/schemas.ts:85-92 | the comparable validator: revenue >= 1, any EBITDA and net income, multiples in [0.1, 100], [0.1, 200] and [0.1, 500] (predicate) |
| Schemas.ComparableSchemaPositive | foundervalue/lib/schemas.ts:85-92 | under the validator the value is positive and lies inside its range |
| Schemas.OfferValid | foundervalue/lib/schemas.ts:98-101 | the offer validator: both amounts >= 1,000 (predicate) |
| Schemas.OfferSchemaBounds | foundervalue/lib/schemas.ts:98-101 | under the validator post-money >= 2000 and dilution and retained share both lie strictly between 0% and 100% |

## Left out

- Note and flag texts: `formatCurrency`, `toFixed` and the strings are not modelled; notes and flags are tags carrying the figures they print.
- `calculatedAt`: the aggregate's clock reading is not modelled.
- Floating point: IEEE-754 rounding, NaN and Infinity are not modelled, and neither is the inexactness of literals such as 0.9 and 1.1. The calculators require only what keeps their divisions defined:
  - the VC method's discount bases are non-zero unless the horizon is 0;
  - the DCF base 1 + WACC is non-zero outside the soft failure;
  - the offer's post-money is non-zero and its horizon is positive.
- Valuations.CalculateVCMethod: the ownership note is `None` where the source divides by a zero post-money and prints Infinity or NaN.
- Valuations.ImpliedIRR: the fractional power `Math.pow(x, 1/years)` is the caller-supplied function `power`, since reals have no n-th root here. The IRR is therefore stated in terms of `power`, not computed.
- Valuations.EvaluateOffer: the implied IRR is stated as `ImpliedIRR` of the investor's exit value, so for a positive investment it is only as exact as the caller's `power`, as above.
- The VC method's `yearsToExit` is a whole number of either sign. A negative one reaches the calculator because the form validates nothing, and is modelled. A fractional horizon, which `Math.pow` would also accept, is not modelled, because a fractional power of a `real` cannot be computed here.
- The offer evaluator's horizon is a positive natural number. Its only caller uses the default of 5 years (foundervalue/components/tool/OfferEvaluator.tsx:66).
- The section `component` field: the React component is not part of a `Section`.
- The form itself is not modelled. This covers `useForm`, rendering, the live previews in the per-method forms, charts, routing and the landing pages, all of which are UI.
- The utilities `cn`, `roundToSignificantFigures`, `getStageColor` and the formatters are not modelled; they are presentation only.
- The schemas are not enforced on the valuation form: only the offer validator is attached, at foundervalue/components/tool/OfferEvaluator.tsx:58. The schema predicates are therefore stated as guarantees, not as preconditions of the calculators.
