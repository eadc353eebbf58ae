/**
 * The water module's extended estimates: the annual figures split over
 * quarters, the value of a water-quality improvement, flood mitigation and
 * biodiversity impact. Category names are looked up in fixed tables, with
 * a fallback value for a name the table does not have.
 */
module WaterEnhanced {
  import opened Js
  import opened WaterCalcs

  // ---------------------------------------------------------------------
  // Seasonal split

  datatype Quarter = Quarter(name: string, rainFallPct: real)

  /** The seasonal data a caller may give; `quarters` may be missing. */
  datatype SeasonalData = SeasonalData(quarters: Option<seq<Quarter>>)

  datatype QuarterlyResult = QuarterlyResult(name: string, rainFallPct: real, waterCaptured: real,
                                             energySaved: real, emissionsReduction: real)

  /** The base results with the quarterly split added and the enhanced flag set. */
  datatype SeasonalResults = SeasonalResults(base: WaterResults, quarterly: seq<QuarterlyResult>, enhanced: bool)

  /** A dry first and last quarter (10 percent each) and two wet ones
      (40 percent each). */
  const DefaultQuarters: seq<Quarter> :=
    [Quarter("Q1", 0.1), Quarter("Q2", 0.4), Quarter("Q3", 0.4), Quarter("Q4", 0.1)]

  /** The quarters used: the given ones, or the defaults when the data or its
      quarter list is missing (an empty list is kept). */
  function QuartersOf(seasonalData: Option<SeasonalData>): seq<Quarter>
  {
    if seasonalData.None? || seasonalData.value.quarters.None? then DefaultQuarters
    else seasonalData.value.quarters.value
  }

  function QuarterOf(s: WaterSummary, q: Quarter): QuarterlyResult
  {
    QuarterlyResult(q.name, q.rainFallPct, s.annualWaterCaptured * q.rainFallPct,
                    s.annualEnergySaved * q.rainFallPct, s.annualEmissionsReduction * q.rainFallPct)
  }

  /** Each quarter gets its share of the annual water, energy and emissions
      figures; the base results are kept as they are. */
  function SeasonalWaterCapture(base: WaterResults, seasonalData: Option<SeasonalData>): (r: SeasonalResults)
    ensures r.base == base && r.enhanced
    ensures |r.quarterly| == |QuartersOf(seasonalData)|
    ensures forall k :: 0 <= k < |r.quarterly| ==>
      && r.quarterly[k].name == QuartersOf(seasonalData)[k].name
      && r.quarterly[k].waterCaptured == base.summary.annualWaterCaptured * QuartersOf(seasonalData)[k].rainFallPct
      && r.quarterly[k].energySaved == base.summary.annualEnergySaved * QuartersOf(seasonalData)[k].rainFallPct
      && r.quarterly[k].emissionsReduction
         == base.summary.annualEmissionsReduction * QuartersOf(seasonalData)[k].rainFallPct
  {
    var quarters := QuartersOf(seasonalData);
    SeasonalResults(base, seq(|quarters|, k requires 0 <= k < |quarters| => QuarterOf(base.summary, quarters[k])), true)
  }

  function SumWater(qs: seq<QuarterlyResult>): real
  {
    if |qs| == 0 then 0.0 else SumWater(qs[..|qs| - 1]) + qs[|qs| - 1].waterCaptured
  }

  function SumEnergy(qs: seq<QuarterlyResult>): real
  {
    if |qs| == 0 then 0.0 else SumEnergy(qs[..|qs| - 1]) + qs[|qs| - 1].energySaved
  }

  function SumEmissions(qs: seq<QuarterlyResult>): real
  {
    if |qs| == 0 then 0.0 else SumEmissions(qs[..|qs| - 1]) + qs[|qs| - 1].emissionsReduction
  }

  /** With the default quarters nothing is lost or double-counted: the
      quarters add up to the annual figures. */
  lemma DefaultQuartersAddUp(base: WaterResults)
    ensures var qs := SeasonalWaterCapture(base, None).quarterly;
      && SumWater(qs) == base.summary.annualWaterCaptured
      && SumEnergy(qs) == base.summary.annualEnergySaved
      && SumEmissions(qs) == base.summary.annualEmissionsReduction
  {
    var s := base.summary;
    var qs := SeasonalWaterCapture(base, None).quarterly;
    SumOfFour(qs);
    assert QuartersOf(None) == DefaultQuarters;
    assert qs[0].waterCaptured == s.annualWaterCaptured * 0.1;
    assert qs[1].waterCaptured == s.annualWaterCaptured * 0.4;
    assert qs[2].waterCaptured == s.annualWaterCaptured * 0.4;
    assert qs[3].waterCaptured == s.annualWaterCaptured * 0.1;
  }

  /** The three sums of a four-quarter list, written out. */
  lemma SumOfFour(qs: seq<QuarterlyResult>)
    requires |qs| == 4
    ensures SumWater(qs) == qs[0].waterCaptured + qs[1].waterCaptured + qs[2].waterCaptured + qs[3].waterCaptured
    ensures SumEnergy(qs) == qs[0].energySaved + qs[1].energySaved + qs[2].energySaved + qs[3].energySaved
    ensures SumEmissions(qs) == qs[0].emissionsReduction + qs[1].emissionsReduction
                                + qs[2].emissionsReduction + qs[3].emissionsReduction
  {
    assert qs[..3][..2][..1][..0] == [];
    assert qs[..3][..2][..1] == qs[..1];
    assert qs[..3][..2] == qs[..2];
    assert qs[..3] == qs[..|qs| - 1];
    assert SumWater(qs[..1]) == qs[0].waterCaptured;
    assert SumWater(qs[..2]) == qs[0].waterCaptured + qs[1].waterCaptured;
    assert SumWater(qs[..3]) == qs[0].waterCaptured + qs[1].waterCaptured + qs[2].waterCaptured;
    assert SumEnergy(qs[..1]) == qs[0].energySaved;
    assert SumEnergy(qs[..2]) == qs[0].energySaved + qs[1].energySaved;
    assert SumEnergy(qs[..3]) == qs[0].energySaved + qs[1].energySaved + qs[2].energySaved;
    assert SumEmissions(qs[..1]) == qs[0].emissionsReduction;
    assert SumEmissions(qs[..2]) == qs[0].emissionsReduction + qs[1].emissionsReduction;
    assert SumEmissions(qs[..3]) == qs[0].emissionsReduction + qs[1].emissionsReduction + qs[2].emissionsReduction;
  }

  // ---------------------------------------------------------------------
  // Water quality

  /** The quality index of a category, if the table has it. */
  function QualityIndex(category: string): Option<real>
  {
    if category == "very-poor" then Some(10.0)
    else if category == "poor" then Some(30.0)
    else if category == "moderate" then Some(50.0)
    else if category == "good" then Some(70.0)
    else if category == "excellent" then Some(90.0)
    else None
  }

  /** A table value, or the fallback for a name the table does not have. */
  function LookupOr(v: Option<real>, fallback: real): real
  {
    if v.Some? then v.value else fallback
  }

  /** The index of a category, or the fallback; always on the 10 to 90 scale
      when the fallback is. */
  function QualityIndexOr(category: string, fallback: real): (i: real)
    requires 10.0 <= fallback <= 90.0
    ensures 10.0 <= i <= 90.0
    ensures QualityIndex(category).None? ==> i == fallback
    ensures QualityIndex(category).Some? ==> i == QualityIndex(category).value
  {
    LookupOr(QualityIndex(category), fallback)
  }

  datatype QualityImprovement = QualityImprovement(
    initialQuality: string,
    targetQuality: string,
    initialIndex: real,
    targetIndex: real,
    qualityImprovement: real,
    treatmentCostReduction: real,
    annualTreatmentSavings: real,
    enhancedEcosystemValue: real,
    totalEcosystemValue: real,
    pollutantRemovalPct: real,
    healthBenefitPerPerson: real)

  /** Value of moving from one quality category to another. The categories
      default to poor and good; an unknown initial category counts as
      moderate (50), an unknown target as good (70). */
  function WaterQualityImprovement(waterProjectCost: real, waterArea: real,
                                   initialQuality: Option<string>, targetQuality: Option<string>)
    : (q: QualityImprovement)
    ensures q.initialQuality == (if initialQuality.Some? then initialQuality.value else "poor")
    ensures q.targetQuality == (if targetQuality.Some? then targetQuality.value else "good")
    ensures q.initialIndex == QualityIndexOr(q.initialQuality, 50.0)
    ensures q.targetIndex == QualityIndexOr(q.targetQuality, 70.0)
    ensures q.qualityImprovement == q.targetIndex - q.initialIndex
    ensures -80.0 <= q.qualityImprovement <= 80.0
  {
    var initialName := if initialQuality.Some? then initialQuality.value else "poor";
    var targetName := if targetQuality.Some? then targetQuality.value else "good";
    QualityFigures(initialName, targetName, QualityIndexOr(initialName, 50.0), QualityIndexOr(targetName, 70.0),
                   waterProjectCost, waterArea)
  }

  /** The money and health figures of a move between two indices: every ten
      points cut treatment cost and pollutants by 5 percent, raise the
      ecosystem value per hectare by 1 percent of 1000 and bring 50 per
      person in health benefit. */
  function QualityFigures(initialName: string, targetName: string, initialIndex: real, targetIndex: real,
                          waterProjectCost: real, waterArea: real): (q: QualityImprovement)
    ensures q.initialQuality == initialName && q.targetQuality == targetName
    ensures q.initialIndex == initialIndex && q.targetIndex == targetIndex
    ensures q.qualityImprovement == targetIndex - initialIndex
    ensures q.treatmentCostReduction == q.pollutantRemovalPct == q.qualityImprovement / 200.0
    ensures q.annualTreatmentSavings == waterProjectCost * q.treatmentCostReduction
    ensures q.enhancedEcosystemValue == 1000.0 + 10.0 * q.qualityImprovement
    ensures q.totalEcosystemValue == q.enhancedEcosystemValue * waterArea
    ensures q.healthBenefitPerPerson == 5.0 * q.qualityImprovement
  {
    var qualityImprovement := targetIndex - initialIndex;
    var treatmentCostReduction := ReductionShare(qualityImprovement);
    var enhancedEcosystemValue := 1000.0 * (1.0 + qualityImprovement / 100.0);
    QualityImprovement(initialName, targetName, initialIndex, targetIndex, qualityImprovement,
                       treatmentCostReduction, waterProjectCost * treatmentCostReduction,
                       enhancedEcosystemValue, enhancedEcosystemValue * waterArea,
                       ReductionShare(qualityImprovement), qualityImprovement * 5.0)
  }

  /** The default move, poor to good, is 40 points: 20 percent off treatment
      cost and 200 per person in health benefit. Staying in a category gains
      nothing. */
  lemma QualityImprovementExamples(waterProjectCost: real, waterArea: real, category: string)
    ensures var q := WaterQualityImprovement(waterProjectCost, waterArea, None, None);
      q.qualityImprovement == 40.0 && q.treatmentCostReduction == 0.2 && q.healthBenefitPerPerson == 200.0
    ensures QualityIndex(category).Some? ==>
      var q := WaterQualityImprovement(waterProjectCost, waterArea, Some(category), Some(category));
      q.qualityImprovement == 0.0 && q.annualTreatmentSavings == 0.0
        && q.totalEcosystemValue == 1000.0 * waterArea
  {
  }

  /** Five percent for every ten points of improvement. */
  function ReductionShare(qualityImprovement: real): (r: real)
    ensures r == qualityImprovement / 200.0
  {
    (qualityImprovement / 10.0) * 0.05
  }

  // ---------------------------------------------------------------------
  // Flood mitigation

  datatype FloodMitigation = FloodMitigation(peakFlowReductionPct: real, areaProtected: real,
                                             annualDamagePrevention: real, stormwaterSavings: real,
                                             resilienceImprovementIndex: real)

  /** Peak flow falls by 60 percent of the capture efficiency over five times
      the water area; prevented damage assumes 10000 per hectare at a 10
      percent yearly flood chance, stormwater savings 20 percent of 5000 per
      hectare. Rainfall and runoff are read but not used. */
  function CalculateFloodMitigation(waterArea: real, rainFall: real, runoffCoefficient: real,
                                    captureEfficiency: real): (f: FloodMitigation)
    ensures f.peakFlowReductionPct == 0.6 * captureEfficiency
    ensures f.areaProtected == 5.0 * waterArea
    ensures f.peakFlowReductionPct * 100.0 == f.resilienceImprovementIndex
    ensures f.annualDamagePrevention == f.stormwaterSavings
    ensures f.annualDamagePrevention == 1000.0 * f.areaProtected * f.peakFlowReductionPct
    ensures 0.0 <= captureEfficiency <= 1.0 ==>
      0.0 <= f.peakFlowReductionPct <= 0.6 && 0.0 <= f.resilienceImprovementIndex <= 60.0
  {
    var peakFlowReductionPct := captureEfficiency * 0.6;
    var areaProtected := waterArea * 5.0;
    var annualDamagePrevention := areaProtected * 10000.0 * 0.1 * peakFlowReductionPct;
    var stormwaterSavings := areaProtected * 5000.0 * peakFlowReductionPct * 0.2;
    FloodMitigation(peakFlowReductionPct, areaProtected, annualDamagePrevention, stormwaterSavings,
                    peakFlowReductionPct * 100.0)
  }

  /** Flood benefits do not depend on rainfall or runoff. */
  lemma FloodIgnoresRainfall(waterArea: real, captureEfficiency: real,
                             rainFall1: real, runoff1: real, rainFall2: real, runoff2: real)
    ensures CalculateFloodMitigation(waterArea, rainFall1, runoff1, captureEfficiency)
         == CalculateFloodMitigation(waterArea, rainFall2, runoff2, captureEfficiency)
  {
  }

  // ---------------------------------------------------------------------
  // Biodiversity impact

  function TypeModifier(waterBodyType: string): Option<real>
  {
    if waterBodyType == "lake" then Some(1.0)
    else if waterBodyType == "river" then Some(1.2)
    else if waterBodyType == "wetland" then Some(1.5)
    else if waterBodyType == "coastal" then Some(1.3)
    else if waterBodyType == "reservoir" then Some(0.8)
    else None
  }

  function ConditionModifier(habitatCondition: string): Option<real>
  {
    if habitatCondition == "pristine" then Some(0.1)
    else if habitatCondition == "good" then Some(0.3)
    else if habitatCondition == "moderate" then Some(0.6)
    else if habitatCondition == "degraded" then Some(0.8)
    else if habitatCondition == "severely-degraded" then Some(1.0)
    else None
  }

  datatype BiodiversityImpact = BiodiversityImpact(
    waterBodyType: string,
    habitatCondition: string,
    biodiversityIndex: real,
    potentialSpeciesSupported: int,
    ecosystemServiceValue: real,
    connectivityImprovement: real)

  /** The type modifier after defaulting the name to lake; an unknown
      type counts as 1.0. */
  function TypeModifierOf(waterBodyType: Option<string>): (t: real)
    ensures 0.8 <= t <= 1.5
    ensures waterBodyType.None? ==> t == 1.0
    ensures waterBodyType.Some? && TypeModifier(waterBodyType.value).None? ==> t == 1.0
    ensures waterBodyType.Some? && TypeModifier(waterBodyType.value).Some? ==>
      t == TypeModifier(waterBodyType.value).value
  {
    LookupOr(TypeModifier(if waterBodyType.Some? then waterBodyType.value else "lake"), 1.0)
  }

  /** The condition modifier after defaulting the name to degraded; an
      unknown condition counts as 0.6, a moderate one. */
  function ConditionModifierOf(habitatCondition: Option<string>): (c: real)
    ensures 0.1 <= c <= 1.0
    ensures habitatCondition.None? ==> c == 0.8
    ensures habitatCondition.Some? && ConditionModifier(habitatCondition.value).None? ==> c == 0.6
    ensures habitatCondition.Some? && ConditionModifier(habitatCondition.value).Some? ==>
      c == ConditionModifier(habitatCondition.value).value
  {
    LookupOr(ConditionModifier(if habitatCondition.Some? then habitatCondition.value else "degraded"), 0.6)
  }

  /** Improvement grows with area, the type and condition modifiers and the
      project duration up to 20 years; the index is capped at 100 and the
      connectivity score at 1. */
  function CalculateBiodiversityImpact(waterArea: real, projectDuration: real,
                                       waterBodyType: Option<string>, habitatCondition: Option<string>)
    : (b: BiodiversityImpact)
    ensures b.biodiversityIndex <= 100.0
    ensures b.connectivityImprovement <= 1.0
    ensures b.waterBodyType == if waterBodyType.Some? then waterBodyType.value else "lake"
    ensures b.habitatCondition == if habitatCondition.Some? then habitatCondition.value else "degraded"
    ensures b.biodiversityIndex == BiodiversityIndex(waterArea, TypeModifierOf(waterBodyType),
                                                     ConditionModifierOf(habitatCondition),
                                                     DurationFactor(projectDuration))
    ensures b.potentialSpeciesSupported
         == Round(waterArea * 5.0 * TypeModifierOf(waterBodyType) * ConditionModifierOf(habitatCondition))
    ensures b.ecosystemServiceValue
         == waterArea * 5000.0 * TypeModifierOf(waterBodyType) * ConditionModifierOf(habitatCondition)
    ensures b.connectivityImprovement == Connectivity(waterArea, TypeModifierOf(waterBodyType))
  {
    ImpactFrom(if waterBodyType.Some? then waterBodyType.value else "lake",
               if habitatCondition.Some? then habitatCondition.value else "degraded",
               waterArea, TypeModifierOf(waterBodyType), ConditionModifierOf(habitatCondition),
               DurationFactor(projectDuration))
  }

  /** The figures for modifiers already looked up. */
  function ImpactFrom(waterBodyType: string, habitatCondition: string, waterArea: real,
                      typeModifier: real, conditionModifier: real, durationFactor: real)
    : (b: BiodiversityImpact)
    ensures b.waterBodyType == waterBodyType && b.habitatCondition == habitatCondition
    ensures b.biodiversityIndex == BiodiversityIndex(waterArea, typeModifier, conditionModifier, durationFactor)
    ensures b.potentialSpeciesSupported == Round(waterArea * 5.0 * typeModifier * conditionModifier)
    ensures b.ecosystemServiceValue == waterArea * 5000.0 * typeModifier * conditionModifier
    ensures b.connectivityImprovement == Connectivity(waterArea, typeModifier)
  {
    BiodiversityImpact(
      waterBodyType,
      habitatCondition,
      BiodiversityIndex(waterArea, typeModifier, conditionModifier, durationFactor),
      Round(waterArea * 5.0 * typeModifier * conditionModifier),
      waterArea * 5000.0 * typeModifier * conditionModifier,
      Connectivity(waterArea, typeModifier))
  }

  /** Five index points per unit of area × modifiers × duration factor,
      capped at 100. */
  function BiodiversityIndex(waterArea: real, typeModifier: real, conditionModifier: real,
                             durationFactor: real): (i: real)
    ensures i <= 100.0
    ensures waterArea * typeModifier * conditionModifier * durationFactor * 5.0 <= 100.0 ==>
      i == waterArea * typeModifier * conditionModifier * durationFactor * 5.0
    ensures waterArea * typeModifier * conditionModifier * durationFactor * 5.0 >= 100.0 ==> i == 100.0
    ensures waterArea >= 0.0 && typeModifier >= 0.0 && conditionModifier >= 0.0 && durationFactor >= 0.0 ==>
      i >= 0.0
  {
    var baseBiodiversityImprovement := waterArea * typeModifier * conditionModifier * durationFactor;
    NonNegativeProduct(waterArea, typeModifier, conditionModifier, durationFactor);
    Min(baseBiodiversityImprovement * 5.0, 100.0)
  }

  /** A tenth of the area times the type modifier, capped at 1. */
  function Connectivity(waterArea: real, typeModifier: real): (c: real)
    ensures c <= 1.0
    ensures (waterArea / 10.0) * typeModifier <= 1.0 ==> c == (waterArea / 10.0) * typeModifier
    ensures (waterArea / 10.0) * typeModifier >= 1.0 ==> c == 1.0
    ensures waterArea >= 0.0 && typeModifier >= 0.0 ==> c >= 0.0
  {
    Min((waterArea / 10.0) * typeModifier, 1.0)
  }

  /** The species estimate and the service value scale the same product
      (5 species and 5000 per modified hectare), so the species count is the
      service value in thousands, rounded. */
  lemma SpeciesFollowServiceValue(waterArea: real, projectDuration: real,
                                  waterBodyType: Option<string>, habitatCondition: Option<string>)
    ensures var b := CalculateBiodiversityImpact(waterArea, projectDuration, waterBodyType, habitatCondition);
      b.potentialSpeciesSupported == Round(b.ecosystemServiceValue / 1000.0)
  {
    var t := TypeModifierOf(waterBodyType);
    var c := ConditionModifierOf(habitatCondition);
    var b := CalculateBiodiversityImpact(waterArea, projectDuration, waterBodyType, habitatCondition);
    assert b.ecosystemServiceValue == waterArea * 5000.0 * t * c;
    assert b.potentialSpeciesSupported == Round(waterArea * 5.0 * t * c);
    ThousandfoldProduct(waterArea, t, c);
  }

  lemma ThousandfoldProduct(w: real, t: real, c: real)
    ensures (w * 5000.0 * t * c) / 1000.0 == w * 5.0 * t * c
  {
    assert w * 5000.0 == 1000.0 * (w * 5.0);
    assert w * 5000.0 * t == 1000.0 * (w * 5.0 * t);
    assert w * 5000.0 * t * c == 1000.0 * (w * 5.0 * t * c);
  }

  /** For a non-negative area and duration every figure is non-negative. */
  lemma BiodiversityImpactNonNegative(waterArea: real, projectDuration: real,
                                      waterBodyType: Option<string>, habitatCondition: Option<string>)
    requires waterArea >= 0.0 && projectDuration >= 0.0
    ensures var b := CalculateBiodiversityImpact(waterArea, projectDuration, waterBodyType, habitatCondition);
      && b.biodiversityIndex >= 0.0 && b.connectivityImprovement >= 0.0
      && b.potentialSpeciesSupported >= 0 && b.ecosystemServiceValue >= 0.0
  {
    var t := TypeModifierOf(waterBodyType);
    var c := ConditionModifierOf(habitatCondition);
    NonNegativeProduct(waterArea, 5.0, t, c);
    NonNegativeProduct(waterArea, 5000.0, t, c);
    RoundNonNegative(waterArea * 5.0 * t * c);
  }

  /** `min(duration / 20, 1)`: full effect from 20 years on. */
  function DurationFactor(projectDuration: real): (f: real)
    ensures f <= 1.0
    ensures projectDuration >= 20.0 ==> f == 1.0
    ensures projectDuration <= 20.0 ==> f == projectDuration / 20.0
    ensures projectDuration >= 0.0 ==> f >= 0.0
  {
    Min(projectDuration / 20.0, 1.0)
  }

  lemma NonNegativeProduct(w: real, x: real, y: real, z: real)
    ensures w >= 0.0 && x >= 0.0 && y >= 0.0 && z >= 0.0 ==> w * x * y * z >= 0.0
  {
    if w >= 0.0 && x >= 0.0 && y >= 0.0 && z >= 0.0 {
      assert w * x >= 0.0;
      assert w * x * y >= 0.0;
    }
  }

  /** The defaults, a lake in degraded condition, and an unknown type and
      condition give different species estimates for the same area: the
      unknown condition falls back to moderate (0.6), not to the default
      name's 0.8. Four species per hectare against three; on 10 ha, 40
      against 30. */
  lemma DefaultAndUnknownNamesDiffer(waterArea: real, projectDuration: real)
    ensures CalculateBiodiversityImpact(waterArea, projectDuration, None, None).potentialSpeciesSupported
         == Round(waterArea * 4.0)
    ensures CalculateBiodiversityImpact(waterArea, projectDuration, Some("pond"), Some("unknown"))
              .potentialSpeciesSupported == Round(waterArea * 3.0)
    ensures waterArea == 10.0 ==>
      && CalculateBiodiversityImpact(waterArea, projectDuration, None, None).potentialSpeciesSupported == 40
      && CalculateBiodiversityImpact(waterArea, projectDuration, Some("pond"), Some("unknown"))
           .potentialSpeciesSupported == 30
  {
    assert TypeModifierOf(None) == 1.0 && ConditionModifierOf(None) == 0.8;
    assert TypeModifierOf(Some("pond")) == 1.0 && ConditionModifierOf(Some("unknown")) == 0.6;
    assert waterArea * 5.0 * 1.0 * 0.8 == waterArea * 4.0;
    assert waterArea * 5.0 * 1.0 * 0.6 == waterArea * 3.0;
    RoundOfWhole(40);
    RoundOfWhole(30);
  }
}
