/** The pure logic of the valuation form
    (foundervalue/components/tool/ValuationForm.tsx): the per-stage default
    inputs, the per-stage list of form sections, and the dispatch from a
    stage to the calculators it runs followed by aggregation. */
module ValuationForm {
  import opened Types
  import opened Constants
  import opened Valuations

  /** Every input field of every calculator, as the form holds them. The
      form's field names are exactly those of the six calculator input
      records and never clash, so the flat form record is modelled as the
      six records side by side. */
  datatype FormData = FormData(
    berkus: BerkusInputs,
    scorecard: ScorecardInputs,
    vc: VCMethodInputs,
    arr: ArrMultiplesInputs,
    dcf: DcfInputs,
    comparable: ComparableCompanyInputs)

  /** The defaults every stage starts from. */
  function CommonDefaults(): FormData
  {
    FormData(
      BerkusInputs(0.0, 0.0, 0.0, 0.0, 0.0),
      ScorecardInputs(2_000_000.0, 1.0, 1.0, 1.0, 1.0, 1.0, 1.0, 1.0),
      VCMethodInputs(0.0, 8.0, 0.4, 500_000.0, 5),
      ArrMultiplesInputs(0.0, 0.8, -0.2, None),
      DcfInputs(CashFlows(-500_000.0, -200_000.0, 200_000.0, 800_000.0, 2_000_000.0), 0.15, 0.03),
      ComparableCompanyInputs(0.0, 0.0, 0.0, 8.0, 35.0, 50.0))
  }

  /** One key of a stage's override object, with its value. */
  datatype Override =
    | SetTargetIRR(targetIRR: real)
    | SetInvestmentAmount(investmentAmount: real)
    | SetCurrentARR(currentARR: real)
    | SetRevenueGrowthRate(revenueGrowthRate: real)
    | SetNetProfitMargin(netProfitMargin: real)
    | SetWacc(wacc: real)
    | SetTerminalGrowthRate(terminalGrowthRate: real)
    | SetFreeCashFlows(freeCashFlows: CashFlows)

  /** The field names an override object may carry. */
  datatype OverrideKey =
    | TargetIRRKey | InvestmentAmountKey | CurrentARRKey | RevenueGrowthRateKey
    | NetProfitMarginKey | WaccKey | TerminalGrowthRateKey | FreeCashFlowsKey

  function KeyOf(o: Override): OverrideKey
  {
    match o
    case SetTargetIRR(_) => TargetIRRKey
    case SetInvestmentAmount(_) => InvestmentAmountKey
    case SetCurrentARR(_) => CurrentARRKey
    case SetRevenueGrowthRate(_) => RevenueGrowthRateKey
    case SetNetProfitMargin(_) => NetProfitMarginKey
    case SetWacc(_) => WaccKey
    case SetTerminalGrowthRate(_) => TerminalGrowthRateKey
    case SetFreeCashFlows(_) => FreeCashFlowsKey
  }

  /** The current value of an overridable field, as the override that would set it. */
  function Field(d: FormData, k: OverrideKey): (o: Override)
    ensures KeyOf(o) == k
  {
    match k
    case TargetIRRKey => SetTargetIRR(d.vc.targetIRR)
    case InvestmentAmountKey => SetInvestmentAmount(d.vc.investmentAmount)
    case CurrentARRKey => SetCurrentARR(d.arr.currentARR)
    case RevenueGrowthRateKey => SetRevenueGrowthRate(d.arr.revenueGrowthRate)
    case NetProfitMarginKey => SetNetProfitMargin(d.arr.netProfitMargin)
    case WaccKey => SetWacc(d.dcf.wacc)
    case TerminalGrowthRateKey => SetTerminalGrowthRate(d.dcf.terminalGrowthRate)
    case FreeCashFlowsKey => SetFreeCashFlows(d.dcf.freeCashFlows)
  }

  /** The record with every overridable field blanked: what no override can touch. */
  function Fixed(d: FormData): FormData
  {
    d.(vc := d.vc.(targetIRR := 0.0, investmentAmount := 0.0),
       arr := d.arr.(currentARR := 0.0, revenueGrowthRate := 0.0, netProfitMargin := 0.0),
       dcf := DcfInputs(CashFlows(0.0, 0.0, 0.0, 0.0, 0.0), 0.0, 0.0))
  }

  /** Spreading one override key over the record. */
  function Apply(d: FormData, o: Override): (d': FormData)
    ensures Fixed(d') == Fixed(d)
    ensures Field(d', KeyOf(o)) == o
    ensures forall k :: k != KeyOf(o) ==> Field(d', k) == Field(d, k)
  {
    match o
    case SetTargetIRR(v) => d.(vc := d.vc.(targetIRR := v))
    case SetInvestmentAmount(v) => d.(vc := d.vc.(investmentAmount := v))
    case SetCurrentARR(v) => d.(arr := d.arr.(currentARR := v))
    case SetRevenueGrowthRate(v) => d.(arr := d.arr.(revenueGrowthRate := v))
    case SetNetProfitMargin(v) => d.(arr := d.arr.(netProfitMargin := v))
    case SetWacc(v) => d.(dcf := d.dcf.(wacc := v))
    case SetTerminalGrowthRate(v) => d.(dcf := d.dcf.(terminalGrowthRate := v))
    case SetFreeCashFlows(v) => d.(dcf := d.dcf.(freeCashFlows := v))
  }

  /** `{ ...d, ...overrides }`: the keys spread in order, later ones winning. */
  function ApplyAll(d: FormData, os: seq<Override>): FormData
  {
    if |os| == 0 then d else Apply(ApplyAll(d, os[..|os| - 1]), os[|os| - 1])
  }

  /** No key of `os` is `k`. */
  predicate Unlisted(os: seq<Override>, k: OverrideKey)
  {
    forall j :: 0 <= j < |os| ==> KeyOf(os[j]) != k
  }

  /** No override after position `j` sets the key `os[j]` sets. */
  predicate LastWithKey(os: seq<Override>, j: nat)
    requires j < |os|
  {
    forall m :: j < m < |os| ==> KeyOf(os[m]) != KeyOf(os[j])
  }

  /** No two overrides set the same key. */
  predicate DistinctKeys(os: seq<Override>)
  {
    forall i, j :: 0 <= i < j < |os| ==> KeyOf(os[i]) != KeyOf(os[j])
  }

  /** Spreading overrides leaves every unlisted field as it was and sets each
      listed field to the last value given for it. */
  lemma {:induction false} ApplyAllSpec(d: FormData, os: seq<Override>)
    ensures Fixed(ApplyAll(d, os)) == Fixed(d)
    ensures forall k :: Unlisted(os, k) ==> Field(ApplyAll(d, os), k) == Field(d, k)
    ensures forall j :: 0 <= j < |os| && LastWithKey(os, j) ==>
      Field(ApplyAll(d, os), KeyOf(os[j])) == os[j]
  {
    if |os| > 0 {
      var init, last := os[..|os| - 1], os[|os| - 1];
      assert forall m :: 0 <= m < |init| ==> init[m] == os[m];
      ApplyAllSpec(d, init);
      forall k | Unlisted(os, k)
        ensures Field(ApplyAll(d, os), k) == Field(d, k)
      {
        assert KeyOf(last) != k;
        assert Unlisted(init, k);
      }
      forall j | 0 <= j < |os| && LastWithKey(os, j)
        ensures Field(ApplyAll(d, os), KeyOf(os[j])) == os[j]
      {
        if j < |os| - 1 {
          assert KeyOf(last) != KeyOf(os[j]);
          assert LastWithKey(init, j);
        }
      }
    }
  }

  /** The keys each stage overrides, as listed in the stage override table. */
  function StageOverrides(s: StageSlug): seq<Override>
  {
    match s
    case PreSeed => []
    case Seed => [SetTargetIRR(0.4), SetInvestmentAmount(1_000_000.0)]
    case SeriesA => [SetCurrentARR(0.0), SetRevenueGrowthRate(1.5), SetNetProfitMargin(-0.3)]
    case SeriesBC =>
      [SetCurrentARR(0.0), SetRevenueGrowthRate(0.8), SetNetProfitMargin(-0.1), SetWacc(0.12),
       SetFreeCashFlows(CashFlows(0.0, 500_000.0, 2_000_000.0, 5_000_000.0, 10_000_000.0))]
    case Growth =>
      [SetWacc(0.1), SetTerminalGrowthRate(0.04),
       SetFreeCashFlows(CashFlows(5_000_000.0, 10_000_000.0, 18_000_000.0, 28_000_000.0, 40_000_000.0))]
    case AcquisitionIpo =>
      [SetWacc(0.09), SetTerminalGrowthRate(0.03),
       SetFreeCashFlows(CashFlows(10_000_000.0, 20_000_000.0, 35_000_000.0, 55_000_000.0, 80_000_000.0))]
  }

  /** The form defaults of a stage: the common record with the stage's
      overrides spread over it. */
  function Defaults(s: StageSlug): FormData
  {
    ApplyAll(CommonDefaults(), StageOverrides(s))
  }

  /** Each stage lists every key at most once. */
  lemma StageOverridesDistinct(s: StageSlug)
    ensures DistinctKeys(StageOverrides(s))
  {
  }

  /** Each stage's defaults differ from the common record only on the keys
      the stage lists, and take the listed value there. */
  lemma DefaultsOverrideOnlyListed(s: StageSlug)
    ensures Fixed(Defaults(s)) == Fixed(CommonDefaults())
    ensures forall k :: Unlisted(StageOverrides(s), k) ==>
      Field(Defaults(s), k) == Field(CommonDefaults(), k)
    ensures forall o :: o in StageOverrides(s) ==> Field(Defaults(s), KeyOf(o)) == o
  {
    var os := StageOverrides(s);
    ApplyAllSpec(CommonDefaults(), os);
    StageOverridesDistinct(s);
    forall o | o in os ensures Field(Defaults(s), KeyOf(o)) == o {
      var j :| 0 <= j < |os| && os[j] == o;
      assert LastWithKey(os, j);
    }
  }

  /** Pre-seed lists no overrides: its defaults are the common record. */
  lemma PreSeedDefaultsAreCommon()
    ensures Defaults(PreSeed) == CommonDefaults()
  {
  }

  /** On untouched defaults every stage has WACC above terminal growth. */
  lemma DefaultsWaccAboveGrowth(s: StageSlug)
    ensures Defaults(s).dcf.wacc > Defaults(s).dcf.terminalGrowthRate >= 0.0
  {
    if s == PreSeed || s == Seed || s == SeriesA {
      EarlyStageRates(s);
    } else {
      LateStageRates(s);
    }
  }

  /** The early stages keep the common discount and growth rates. */
  lemma EarlyStageRates(s: StageSlug)
    requires s == PreSeed || s == Seed || s == SeriesA
    ensures Defaults(s).dcf.wacc == 0.15 && Defaults(s).dcf.terminalGrowthRate == 0.03
  {
    if s != PreSeed {
      DefaultsOverrideOnlyListed(s);
      assert Unlisted(StageOverrides(s), WaccKey);
      assert Unlisted(StageOverrides(s), TerminalGrowthRateKey);
    }
  }

  /** The later stages lower WACC (and growth stages raise terminal growth),
      keeping WACC above growth. */
  lemma LateStageRates(s: StageSlug)
    requires s == SeriesBC || s == Growth || s == AcquisitionIpo
    ensures Defaults(s).dcf.wacc > Defaults(s).dcf.terminalGrowthRate >= 0.0
  {
    match s
    case SeriesBC =>
      DefaultsOverrideOnlyListed(SeriesBC);
      assert SetWacc(0.12) in StageOverrides(SeriesBC);
      assert Unlisted(StageOverrides(SeriesBC), TerminalGrowthRateKey);
    case Growth =>
      DefaultsOverrideOnlyListed(Growth);
      assert SetWacc(0.1) in StageOverrides(Growth);
      assert SetTerminalGrowthRate(0.04) in StageOverrides(Growth);
    case AcquisitionIpo =>
      DefaultsOverrideOnlyListed(AcquisitionIpo);
      assert SetWacc(0.09) in StageOverrides(AcquisitionIpo);
      assert SetTerminalGrowthRate(0.03) in StageOverrides(AcquisitionIpo);
  }

  /** So the DCF calculator run on untouched defaults never takes its
      soft-failure branch. */
  lemma DefaultsAvoidDcfSoftFailure(s: StageSlug)
    ensures DcfDivisionDefined(Defaults(s).dcf)
    ensures CalculateDcf(Defaults(s).dcf).confidence == High
  {
    DefaultsWaccAboveGrowth(s);
  }

  // ---------------------------------------------------------------------------
  // Sections and dispatch
  // ---------------------------------------------------------------------------

  datatype Section = Section(id: string, title: string, subtitle: string)

  const BerkusSection := Section("berkus", "Berkus Method", "Risk-factor valuation for pre-revenue startups")
  const ScorecardSection := Section("scorecard", "Scorecard Method", "Weighted comparison to regional comps")
  const VCMethodSection := Section("vcmethod", "VC Method", "IRR-based backwards valuation from exit")
  const ArrSection := Section("arr", "ARR / Revenue Multiples", "Rule of 40 driven SaaS valuation")
  const DcfSection := Section("dcf", "Discounted Cash Flow (DCF)", "5-year FCF projections with terminal value")
  const ComparableSection := Section("comparable", "Comparable Company Analysis", "EV/Revenue, EV/EBITDA, and P/E multiples")

  /** The input sections the form shows for each stage. */
  function StageSections(s: StageSlug): seq<Section>
  {
    match s
    case PreSeed => [BerkusSection, ScorecardSection]
    case Seed => [VCMethodSection, ScorecardSection]
    case SeriesA => [ArrSection]
    case SeriesBC => [ArrSection, DcfSection]
    case Growth => [DcfSection]
    case AcquisitionIpo => [DcfSection, ComparableSection]
  }

  /** The calculator whose inputs a section collects. The source ties a
      section to its calculator only through the section's `component`,
      which is not modelled; this id table stands in for it. */
  function SectionMethod(id: string): Option<MethodKey>
  {
    if id == "berkus" then Some(Berkus)
    else if id == "scorecard" then Some(Scorecard)
    else if id == "vcmethod" then Some(VCMethod)
    else if id == "arr" then Some(ArrMultiples)
    else if id == "dcf" then Some(Dcf)
    else if id == "comparable" then Some(ComparableCompany)
    else None
  }

  /** `customMultiple || undefined`: a zero override is dropped. */
  function OrUndefined(m: Option<real>): (r: Option<real>)
    ensures r.None? <==> m.None? || m.value == 0.0
    ensures r.Some? ==> r == m
  {
    if m.Some? && m.value != 0.0 then m else None
  }

  /** The ARR inputs the form hands over: the form's fields with a falsy
      custom multiple dropped. */
  function ArrMultiplesFrom(d: FormData): ArrMultiplesInputs
  {
    d.arr.(customMultiple := OrUndefined(d.arr.customMultiple))
  }

  /** Whether stage `s` runs calculator `k`: the condition of the form's
      `if` block for that calculator. */
  predicate Runs(s: StageSlug, k: MethodKey)
  {
    match k
    case Scorecard => s == PreSeed || s == Seed
    case Berkus => s == PreSeed
    case VCMethod => s == Seed
    case ArrMultiples => s == SeriesA || s == SeriesBC
    case Dcf => s == SeriesBC || s == Growth || s == AcquisitionIpo
    case ComparableCompany => s == AcquisitionIpo
  }

  /** Position of a calculator's `if` block in the form's chain of blocks. */
  function ChainIndex(k: MethodKey): nat
  {
    match k
    case Scorecard => 0
    case Berkus => 1
    case VCMethod => 2
    case ArrMultiples => 3
    case Dcf => 4
    case ComparableCompany => 5
  }

  /** The calculators stage `s` runs, in the order it runs them. */
  function RunOrder(s: StageSlug): seq<MethodKey>
  {
    match s
    case PreSeed => [Scorecard, Berkus]
    case Seed => [Scorecard, VCMethod]
    case SeriesA => [ArrMultiples]
    case SeriesBC => [ArrMultiples, Dcf]
    case Growth => [Dcf]
    case AcquisitionIpo => [Dcf, ComparableCompany]
  }

  /** The run order is the chain of `if` blocks filtered by their
      conditions: it lists exactly the calculators whose block fires, in
      chain order. */
  lemma RunOrderFiltersChain(s: StageSlug)
    ensures forall k :: k in RunOrder(s) <==> Runs(s, k)
    ensures forall i, j :: 0 <= i < j < |RunOrder(s)| ==>
      ChainIndex(RunOrder(s)[i]) < ChainIndex(RunOrder(s)[j])
  {
    match s
    case PreSeed =>
    case Seed =>
    case SeriesA =>
    case SeriesBC =>
    case Growth =>
    case AcquisitionIpo =>
  }

  /** The divisions calculator `k` performs are defined on `d`. */
  predicate CalculatorDefined(k: MethodKey, d: FormData)
  {
    && (k == VCMethod ==> VCDivisionDefined(d.vc))
    && (k == Dcf ==> DcfDivisionDefined(d.dcf))
  }

  /** The divisions of the calculators a stage runs are defined on `d`. */
  predicate Computable(s: StageSlug, d: FormData)
  {
    forall k :: Runs(s, k) ==> CalculatorDefined(k, d)
  }

  /** One `if` block's call: calculator `k` on the fields the form hands it. */
  function RunCalculator(k: MethodKey, d: FormData): (r: MethodResult)
    requires CalculatorDefined(k, d)
    ensures r.methodKey == k
  {
    match k
    case Scorecard => CalculateScorecard(d.scorecard)
    case Berkus => CalculateBerkus(d.berkus)
    case VCMethod => CalculateVCMethod(d.vc)
    case ArrMultiples => CalculateArrMultiples(ArrMultiplesFrom(d))
    case Dcf => CalculateDcf(d.dcf)
    case ComparableCompany => CalculateComparableCompany(d.comparable)
  }

  /** The results of the calculators a stage runs, in run order: one result
      per fired `if` block, reporting that block's method key. */
  function StageMethods(s: StageSlug, d: FormData): (ms: seq<MethodResult>)
    requires Computable(s, d)
    ensures |ms| == |RunOrder(s)|
    ensures forall i :: 0 <= i < |ms| ==> ms[i].methodKey == RunOrder(s)[i]
  {
    var ks := RunOrder(s);
    RunOrderFiltersChain(s);
    seq(|ks|, i requires 0 <= i < |ks| => assert ks[i] in ks; RunCalculator(ks[i], d))
  }

  /** The method keys of a result list. */
  function KeySet(ms: seq<MethodResult>): set<MethodKey>
  {
    set m | m in ms :: m.methodKey
  }

  /** The run order lists the registry's methods of the stage, each once. */
  lemma RunOrderMatchesRegistry(s: StageSlug)
    ensures |RunOrder(s)| == |StageInfo(s).methods|
    ensures (set k | k in RunOrder(s)) == (set k | k in StageInfo(s).methods)
  {
    var ks := StageInfo(s).methods;
    match s
    case PreSeed => assert ks == [Berkus, Scorecard];
    case Seed => assert ks == [VCMethod, Scorecard];
    case SeriesA => assert ks == [ArrMultiples];
    case SeriesBC => assert ks == [ArrMultiples, Dcf];
    case Growth => assert ks == [Dcf];
    case AcquisitionIpo => assert ks == [Dcf, ComparableCompany];
  }

  /** A stage runs each calculator of its registry entry exactly once and no other. */
  lemma StageMethodsMatchRegistry(s: StageSlug, d: FormData)
    requires Computable(s, d)
    ensures KeySet(StageMethods(s, d)) == set k | k in StageInfo(s).methods
    ensures |StageMethods(s, d)| == |StageInfo(s).methods|
  {
    RunOrderMatchesRegistry(s);
    KeysFollowOrder(StageMethods(s, d), RunOrder(s));
  }

  /** Results whose keys follow `order` position by position have exactly
      the keys of `order`. */
  lemma KeysFollowOrder(ms: seq<MethodResult>, order: seq<MethodKey>)
    requires |ms| == |order|
    requires forall i :: 0 <= i < |order| ==> ms[i].methodKey == order[i]
    ensures KeySet(ms) == set k | k in order
  {
    forall k | k in KeySet(ms) ensures k in order {
      var m :| m in ms && m.methodKey == k;
      var i :| 0 <= i < |ms| && ms[i] == m;
      assert order[i] == k;
    }
    forall k | k in order ensures k in KeySet(ms) {
      var i :| 0 <= i < |order| && order[i] == k;
      assert ms[i] in ms;
    }
  }

  /** Runs a stage's calculators and aggregates them under that stage: the
      results carry one entry per method the stage's registry entry lists. */
  function ComputeResults(s: StageSlug, d: FormData): (r: ValuationResults)
    requires Computable(s, d)
    ensures r.stage == s
    ensures KeySet(r.methods) == set k | k in StageInfo(s).methods
    ensures |r.methods| == |StageInfo(s).methods|
  {
    StageMethodsMatchRegistry(s, d);
    AggregateResults(s, StageMethods(s, d))
  }

  /** The method keys the sections of a stage collect inputs for. */
  function SectionKeys(secs: seq<Section>): set<MethodKey>
  {
    set sec, k | sec in secs && SectionMethod(sec.id) == Some(k) :: k
  }

  /** Each of the six sections collects the inputs of its own calculator. */
  lemma SectionIdsResolve()
    ensures SectionMethod(BerkusSection.id) == Some(Berkus)
    ensures SectionMethod(ScorecardSection.id) == Some(Scorecard)
    ensures SectionMethod(VCMethodSection.id) == Some(VCMethod)
    ensures SectionMethod(ArrSection.id) == Some(ArrMultiples)
    ensures SectionMethod(DcfSection.id) == Some(Dcf)
    ensures SectionMethod(ComparableSection.id) == Some(ComparableCompany)
  {
  }

  /** The sections of a stage follow its registry entry's method order
      (which for pre-seed and seed is not the order the calculators run in). */
  lemma SectionsInRegistryOrder(s: StageSlug)
    ensures |StageSections(s)| == |StageInfo(s).methods|
    ensures forall i :: 0 <= i < |StageInfo(s).methods| ==>
      SectionMethod(StageSections(s)[i].id) == Some(StageInfo(s).methods[i])
  {
    SectionIdsResolve();
    match s
    case PreSeed =>
    case Seed =>
    case SeriesA =>
    case SeriesBC =>
    case Growth =>
    case AcquisitionIpo =>
  }

  /** Sections whose calculators follow `order` position by position collect
      inputs for exactly the keys of `order`. */
  lemma SectionKeysFollowOrder(secs: seq<Section>, order: seq<MethodKey>)
    requires |secs| == |order|
    requires forall i :: 0 <= i < |order| ==> SectionMethod(secs[i].id) == Some(order[i])
    ensures SectionKeys(secs) == set k | k in order
  {
    forall k | k in SectionKeys(secs) ensures k in order {
      var sec, k' :| sec in secs && SectionMethod(sec.id) == Some(k') && k' == k;
      var i :| 0 <= i < |secs| && secs[i] == sec;
      assert order[i] == k;
    }
    forall k | k in order ensures k in SectionKeys(secs) {
      var i :| 0 <= i < |order| && order[i] == k;
      assert secs[i] in secs;
    }
  }

  /** Every section of a stage names a calculator, and the form shows exactly
      one section per calculator the stage runs. */
  lemma SectionsMatchCalculators(s: StageSlug, d: FormData)
    requires Computable(s, d)
    ensures forall sec :: sec in StageSections(s) ==> SectionMethod(sec.id).Some?
    ensures SectionKeys(StageSections(s)) == KeySet(StageMethods(s, d))
    ensures |StageSections(s)| == |StageMethods(s, d)|
  {
    SectionsInRegistryOrder(s);
    StageMethodsMatchRegistry(s, d);
    SectionKeysFollowOrder(StageSections(s), StageInfo(s).methods);
    forall sec | sec in StageSections(s) ensures SectionMethod(sec.id).Some? {
      var i :| 0 <= i < |StageSections(s)| && StageSections(s)[i] == sec;
    }
  }

  /** Pre-seed runs Scorecard before Berkus, the reverse of its registry order. */
  lemma PreSeedRunsScorecardFirst(d: FormData)
    ensures StageMethods(PreSeed, d)[0] == CalculateScorecard(d.scorecard)
    ensures StageMethods(PreSeed, d)[1] == CalculateBerkus(d.berkus)
    ensures StageInfo(PreSeed).methods == [Berkus, Scorecard]
  {
  }

  /** The form turns a zero custom multiple into no override, so the ARR
      result falls back to the Rule-of-40 multiple, whereas the calculator
      called directly with the zero honours it and values the company at 0. */
  lemma ZeroCustomMultipleFallsBack(d: FormData)
    requires d.arr.customMultiple == Some(0.0)
    ensures CalculateArrMultiples(ArrMultiplesFrom(d)).value
         == d.arr.currentARR * CalculateRuleOf40(d.arr.revenueGrowthRate, d.arr.netProfitMargin).suggestedMultiple
    ensures CalculateArrMultiples(d.arr).value == 0.0
  {
  }

  /** When every calculator result lies inside its own range (for the VC
      method: a non-negative target IRR and terminal value) the aggregate
      midpoint lies inside the aggregate range. */
  lemma ComputeResultsOrdered(s: StageSlug, d: FormData)
    requires Computable(s, d)
    requires s == Seed ==>
      d.vc.targetIRR >= 0.0 && VCTerminalValue(d.vc) >= 0.0 && d.vc.yearsToExit >= 0
    ensures var r := ComputeResults(s, d);
      r.aggregateLow <= r.aggregateMidpoint <= r.aggregateHigh
  {
    var ks := RunOrder(s);
    var ms := StageMethods(s, d);
    forall i | 0 <= i < |ms| ensures Bracketed(ms[i]) {
      assert ks[i] in ks;
      RunCalculatorBracketed(ks[i], d);
    }
    AggregateOrdered(s, ms);
  }

  /** Each calculator's value lies inside its own range. The VC method's
      needs a non-negative target IRR and terminal value, and a non-negative
      horizon: over a negative one its band is turned round instead. */
  lemma RunCalculatorBracketed(k: MethodKey, d: FormData)
    requires CalculatorDefined(k, d)
    requires k == VCMethod ==> d.vc.targetIRR >= 0.0 && VCTerminalValue(d.vc) >= 0.0
    ensures k != VCMethod || d.vc.yearsToExit >= 0 ==> Bracketed(RunCalculator(k, d))
    ensures var r := RunCalculator(k, d);
      k == VCMethod && d.vc.yearsToExit < 0 ==> r.range.high <= r.value <= r.range.low
  {
    if k == VCMethod {
      VCRangeBracketsValue(d.vc);
    }
  }

  /** The seed aggregate is not ordered over a negative horizon: with a zero
      Scorecard baseline only the VC result counts, and a horizon of -1 year
      gives it the range 148 down to 132 around a value of 140. */
  lemma SeedNegativeHorizonInvertsAggregate(d: FormData)
    requires d.scorecard.comparableAvgValuation == 0.0
    requires d.vc == VCMethodInputs(100.0, 1.0, 0.4, 0.0, -1)
    ensures Computable(Seed, d)
    ensures var r := ComputeResults(Seed, d);
      r.aggregateLow == 148.0 && r.aggregateMidpoint == 140.0 && r.aggregateHigh == 132.0
  {
    NegativeHorizonInvertsBand();
    assert VCDivisionDefined(d.vc);
    var sc, vc := CalculateScorecard(d.scorecard), CalculateVCMethod(d.vc);
    SeedMethods(d);
    var ms := StageMethods(Seed, d);
    assert ms[1..] == [vc] && ms[1..][1..] == [];
    assert ValidResults(ms) == [vc];
    AggregateOfSingleValid(Seed, ms, vc);
  }

  /** At seed the form runs the Scorecard and then the VC method. */
  lemma SeedMethods(d: FormData)
    requires Computable(Seed, d) && VCDivisionDefined(d.vc)
    ensures StageMethods(Seed, d) == [CalculateScorecard(d.scorecard), CalculateVCMethod(d.vc)]
  {
    var ms := StageMethods(Seed, d);
    assert ms[0] == RunCalculator(Scorecard, d);
    assert ms[1] == RunCalculator(VCMethod, d);
  }
}
