/** The static reference tables: the stage registry, the Berkus caps, the
    Scorecard category weights, the Rule-of-40 tiers, per-stage target IRRs,
    per-industry comparable multiples and per-stage dilution ceilings
    (foundervalue/lib/constants.ts). */
module Constants {
  import opened Types
  import Seqs

  predicate Distinct<T(==)>(s: seq<T>)
  {
    forall i, j :: 0 <= i < j < |s| ==> s[i] != s[j]
  }

  /** Every stage slug, once each, in registry order. */
  function StageSlugs(): (r: seq<StageSlug>)
    ensures |r| == 6 && Distinct(r)
  {
    [PreSeed, Seed, SeriesA, SeriesBC, Growth, AcquisitionIpo]
  }

  /** Position of a stage in registry order: every slug is listed. */
  function StageIndex(s: StageSlug): (i: nat)
    ensures i < |StageSlugs()| && StageSlugs()[i] == s
  {
    match s
    case PreSeed => 0
    case Seed => 1
    case SeriesA => 2
    case SeriesBC => 3
    case Growth => 4
    case AcquisitionIpo => 5
  }

  /** The stage registry: one entry per slug, in slug order, each with a
      non-empty list of distinct method keys and a proper typical range. */
  function Stages(): (r: seq<Stage>)
    ensures |r| == |StageSlugs()|
    ensures forall i :: 0 <= i < |r| ==> r[i].slug == StageSlugs()[i]
    ensures forall i :: 0 <= i < |r| ==> |r[i].methods| > 0 && Distinct(r[i].methods)
    ensures forall i :: 0 <= i < |r| ==>
      0.0 < r[i].typicalRange.min < r[i].typicalRange.max
  {
    [ Stage(PreSeed, "Pre-Seed", "Pre-Seed", "Idea or MVP stage, pre-revenue",
            TypicalRange(500_000.0, 3_000_000.0), [Berkus, Scorecard],
            "$50K \U{2013} $500K"),
      Stage(Seed, "Seed", "Seed", "Early traction, beginning revenue",
            TypicalRange(2_000_000.0, 10_000_000.0), [VCMethod, Scorecard],
            "$500K \U{2013} $3M"),
      Stage(SeriesA, "Series A", "Series A", "Proven model, scaling revenue",
            TypicalRange(5_000_000.0, 30_000_000.0), [ArrMultiples],
            "$3M \U{2013} $15M"),
      Stage(SeriesBC, "Series B / C", "B / C", "Significant revenue, expanding markets",
            TypicalRange(20_000_000.0, 200_000_000.0), [ArrMultiples, Dcf],
            "$15M \U{2013} $100M"),
      Stage(Growth, "Growth / Late Stage", "Growth", "Mature operations, path to profitability",
            TypicalRange(100_000_000.0, 1_000_000_000.0), [Dcf],
            "$50M \U{2013} $500M"),
      Stage(AcquisitionIpo, "Acquisition / IPO", "Exit", "Strategic exit or public listing",
            TypicalRange(200_000_000.0, 10_000_000_000.0), [Dcf, ComparableCompany],
            "$100M+") ]
  }

  /** The registry entry of a stage. */
  function StageInfo(s: StageSlug): (st: Stage)
    ensures st.slug == s && st in Stages()
  {
    Stages()[StageIndex(s)]
  }

  /** Every method key is applicable at some stage. */
  lemma EveryMethodUsed(k: MethodKey)
    ensures exists s: StageSlug :: k in StageInfo(s).methods
  {
    match k
    case Berkus => assert k in StageInfo(PreSeed).methods;
    case Scorecard => assert k in StageInfo(PreSeed).methods;
    case VCMethod => assert k in StageInfo(Seed).methods;
    case ArrMultiples => assert k in StageInfo(SeriesA).methods;
    case Dcf => assert k in StageInfo(Growth).methods;
    case ComparableCompany => assert k in StageInfo(AcquisitionIpo).methods;
  }

  const BerkusMaxPerFactor: real := 500_000.0
  const BerkusMaxTotal: real := 2_500_000.0

  /** The Berkus total cap is five times the per-factor cap. */
  lemma BerkusCapsConsistent()
    ensures BerkusMaxTotal == 5.0 * BerkusMaxPerFactor
  {
  }

  /** The fixed Scorecard category weights. */
  datatype ScorecardWeights = ScorecardWeights(
    team: real,
    opportunitySize: real,
    productTechnology: real,
    competitiveEnvironment: real,
    salesMarketing: real,
    additionalInvestment: real,
    other: real)
  {
    function AsSeq(): seq<real>
    {
      [team, opportunitySize, productTechnology, competitiveEnvironment,
       salesMarketing, additionalInvestment, other]
    }
  }

  const ScorecardWeightTable: ScorecardWeights :=
    ScorecardWeights(0.3, 0.25, 0.15, 0.1, 0.1, 0.05, 0.05)

  /** The seven category weights are non-negative and sum to exactly one. */
  lemma ScorecardWeightsSumToOne()
    ensures Seqs.Sum(ScorecardWeightTable.AsSeq()) == 1.0
    ensures forall i :: 0 <= i < 7 ==> ScorecardWeightTable.AsSeq()[i] >= 0.0
  {
    var w := ScorecardWeightTable.AsSeq();
    assert w[..6][..5][..4][..3][..2][..1][..0] == [];
    assert Seqs.Sum(w[..1]) == 0.3;
    assert Seqs.Sum(w[..2]) == 0.55 by { assert w[..2][..1] == w[..1]; }
    assert Seqs.Sum(w[..3]) == 0.7 by { assert w[..3][..2] == w[..2]; }
    assert Seqs.Sum(w[..4]) == 0.8 by { assert w[..4][..3] == w[..3]; }
    assert Seqs.Sum(w[..5]) == 0.9 by { assert w[..5][..4] == w[..4]; }
    assert Seqs.Sum(w[..6]) == 0.95 by { assert w[..6][..5] == w[..5]; }
    assert w[..7] == w;
    assert w[..7][..6] == w[..6];
  }

  /** Rule-of-40 score thresholds of the three upper tiers. */
  datatype TierThresholds = TierThresholds(premium: real, good: real, average: real)

  /** Suggested ARR multiples of the four tiers. */
  datatype TierMultiples = TierMultiples(premium: real, good: real, average: real, below: real)

  const RuleOf40Thresholds: TierThresholds := TierThresholds(60.0, 40.0, 20.0)
  const RuleOf40Multiples: TierMultiples := TierMultiples(15.0, 10.0, 7.0, 5.0)

  /** The suggested multiple of a tier. */
  function TierMultiple(t: RuleOf40Tier): real
  {
    match t
    case Premium => RuleOf40Multiples.premium
    case Good => RuleOf40Multiples.good
    case Average => RuleOf40Multiples.average
    case Below => RuleOf40Multiples.below
  }

  /** Thresholds and multiples both fall strictly from the premium tier down. */
  lemma RuleOf40TablesOrdered()
    ensures RuleOf40Thresholds.premium > RuleOf40Thresholds.good > RuleOf40Thresholds.average
    ensures TierMultiple(Premium) > TierMultiple(Good) > TierMultiple(Average) > TierMultiple(Below) > 0.0
  {
  }

  /** Default investor target IRR per stage. */
  const VcTargetIrr: map<StageSlug, real> := map[
    PreSeed := 0.5, Seed := 0.4, SeriesA := 0.3,
    SeriesBC := 0.25, Growth := 0.2, AcquisitionIpo := 0.15]

  /** The target IRR is defined at every stage, lies strictly between 0 and 1
      and falls strictly as the stage matures. */
  lemma VcTargetIrrDecreasing()
    ensures forall s: StageSlug :: s in VcTargetIrr && 0.0 < VcTargetIrr[s] < 1.0
    ensures forall i, j :: 0 <= i < j < |StageSlugs()| ==>
      VcTargetIrr[StageSlugs()[i]] > VcTargetIrr[StageSlugs()[j]]
  {
    forall s: StageSlug ensures s in VcTargetIrr && 0.0 < VcTargetIrr[s] < 1.0 {
      match s
      case PreSeed =>
      case Seed =>
      case SeriesA =>
      case SeriesBC =>
      case Growth =>
      case AcquisitionIpo =>
    }
  }

  datatype Industry = Saas | Fintech | Ecommerce | Marketplace | Healthtech

  datatype Metric = EvRevenue | EvEbitda | Pe

  datatype Quartiles = Quartiles(p25: real, median: real, p75: real)

  /** Comparable-company multiples by industry and metric; every entry is a
      positive, ordered set of quartiles. */
  function IndustryMultiples(ind: Industry, m: Metric): (q: Quartiles)
    ensures 0.0 < q.p25 <= q.median <= q.p75
  {
    match ind
    case Saas =>
      (match m
       case EvRevenue => Quartiles(5.0, 8.0, 15.0)
       case EvEbitda => Quartiles(20.0, 35.0, 60.0)
       case Pe => Quartiles(30.0, 50.0, 80.0))
    case Fintech =>
      (match m
       case EvRevenue => Quartiles(4.0, 7.0, 12.0)
       case EvEbitda => Quartiles(18.0, 30.0, 50.0)
       case Pe => Quartiles(20.0, 35.0, 60.0))
    case Ecommerce =>
      (match m
       case EvRevenue => Quartiles(1.5, 2.5, 4.0)
       case EvEbitda => Quartiles(10.0, 18.0, 28.0)
       case Pe => Quartiles(15.0, 22.0, 35.0))
    case Marketplace =>
      (match m
       case EvRevenue => Quartiles(3.0, 6.0, 10.0)
       case EvEbitda => Quartiles(15.0, 25.0, 40.0)
       case Pe => Quartiles(20.0, 30.0, 50.0))
    case Healthtech =>
      (match m
       case EvRevenue => Quartiles(4.0, 8.0, 14.0)
       case EvEbitda => Quartiles(20.0, 32.0, 55.0)
       case Pe => Quartiles(25.0, 40.0, 65.0))
  }

  /** Dilution (percent) above which an offer is flagged, per stage. */
  const ExcessiveDilutionTable: map<StageSlug, real> := map[
    PreSeed := 30.0, Seed := 25.0, SeriesA := 20.0,
    SeriesBC := 15.0, Growth := 12.0, AcquisitionIpo := 0.0]

  /** The dilution ceiling is defined and non-negative at every stage and
      never rises as the stage matures. */
  lemma ExcessiveDilutionNonIncreasing()
    ensures forall s: StageSlug :: s in ExcessiveDilutionTable && ExcessiveDilutionTable[s] >= 0.0
    ensures forall i, j :: 0 <= i < j < |StageSlugs()| ==>
      ExcessiveDilutionTable[StageSlugs()[i]] >= ExcessiveDilutionTable[StageSlugs()[j]]
  {
    forall s: StageSlug ensures s in ExcessiveDilutionTable && ExcessiveDilutionTable[s] >= 0.0 {
      match s
      case PreSeed =>
      case Seed =>
      case SeriesA =>
      case SeriesBC =>
      case Growth =>
      case AcquisitionIpo =>
    }
  }
}
