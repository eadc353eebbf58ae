/**
 * The forest module's extended metrics: green cover before and after the
 * project, the carbon-credit panel's defaults, the biodiversity counts and
 * a second, unguarded beneficiaries estimate.
 */
module ForestEnhanced {
  import opened Js
  import ForestCalcs
  import ForestDOM

  /** Ground covered by one mature tree, in square metres. */
  const TreeCoverageArea: real := 25.0

  /** Square metres in a hectare. */
  const SquareMetresPerHectare: real := 10000.0

  /** The green cover, in percent, assumed before planting. */
  const InitialGreenCover: real := 10.0

  /** The carbon price used when the price input parses to 0 or NaN. */
  const DefaultCarbonPrice: real := 5.0

  /** The inputs the extended metrics read, after coercion. */
  datatype EnhancedInputs = EnhancedInputs(area: real, plantingDensity: real, mortalityRate: real, projectDuration: real)

  /** `parseFloat(x) || 0` on each of the four inputs. */
  function CoerceInputs(area: Option<real>, plantingDensity: Option<real>, mortalityRate: Option<real>,
                        projectDuration: Option<real>): (r: EnhancedInputs)
  {
    EnhancedInputs(OrDefault(area, 0.0), OrDefault(plantingDensity, 0.0),
                   OrDefault(mortalityRate, 0.0), OrDefault(projectDuration, 0.0))
  }

  /** Falling back to 0 only matters for unparsable input: a parsed number,
      zero included, comes through unchanged. */
  lemma CoercionKeepsNumbers(area: Option<real>, plantingDensity: Option<real>, mortalityRate: Option<real>,
                             projectDuration: Option<real>)
    ensures var r := CoerceInputs(area, plantingDensity, mortalityRate, projectDuration);
      && r.area == (if area.Some? then area.value else 0.0)
      && r.plantingDensity == (if plantingDensity.Some? then plantingDensity.value else 0.0)
      && r.mortalityRate == (if mortalityRate.Some? then mortalityRate.value else 0.0)
      && r.projectDuration == (if projectDuration.Some? then projectDuration.value else 0.0)
  {
  }

  /** Trees standing after `duration` years of compounded mortality
      (not rounded). */
  function StandingTrees(area: real, plantingDensity: real, mortalityRate: real, duration: nat): real
  {
    area * plantingDensity * ForestCalcs.SurvivalRatio(mortalityRate, duration)
  }

  /** The green cover, in percent, at the end of the project: the crown
      area of the surviving trees, capped at the project area, as a share
      of the project area, capped at 100. */
  function FinalGreenCover(area: real, plantingDensity: real, mortalityRate: real, duration: nat): (g: real)
    requires area != 0.0
    ensures g <= 100.0
  {
    var survivingTrees := StandingTrees(area, plantingDensity, mortalityRate, duration);
    var totalCoverageArea := Min(survivingTrees * TreeCoverageArea, area * SquareMetresPerHectare);
    Min(100.0, totalCoverageArea / (area * SquareMetresPerHectare) * 100.0)
  }

  lemma DivideNonNegative(x: real, y: real)
    requires x >= 0.0 && y > 0.0
    ensures x / y >= 0.0
  {
  }

  /** With non-negative inputs and a mortality rate between 0 and 100 the
      final green cover is a percentage. */
  lemma FinalGreenCoverIsPercentage(area: real, plantingDensity: real, mortalityRate: real, duration: nat)
    requires area > 0.0 && plantingDensity >= 0.0 && 0.0 <= mortalityRate <= 100.0
    ensures 0.0 <= FinalGreenCover(area, plantingDensity, mortalityRate, duration) <= 100.0
  {
    var ratio := ForestCalcs.SurvivalRatio(mortalityRate, duration);
    ForestCalcs.SurvivalRatioBounds(mortalityRate, duration);
    var planted := area * plantingDensity;
    assert planted >= 0.0;
    var survivingTrees := planted * ratio;
    assert survivingTrees >= 0.0;
    var covered := Min(survivingTrees * TreeCoverageArea, area * SquareMetresPerHectare);
    DivideNonNegative(covered, area * SquareMetresPerHectare);
  }

  /** A canopy that reaches the whole project area gives full cover. */
  lemma FullCanopyGivesFullCover(area: real, plantingDensity: real, mortalityRate: real, duration: nat)
    requires area > 0.0
    requires StandingTrees(area, plantingDensity, mortalityRate, duration) * TreeCoverageArea
             >= area * SquareMetresPerHectare
    ensures FinalGreenCover(area, plantingDensity, mortalityRate, duration) == 100.0
  {
    var a := area * SquareMetresPerHectare;
    assert a / a == 1.0;
  }

  /** Without mortality and below a full canopy, each tree per hectare adds
      a quarter of a percent of cover. */
  lemma CoverWithoutMortality(area: real, plantingDensity: real, duration: nat)
    requires area > 0.0 && 0.0 <= plantingDensity <= 400.0
    ensures FinalGreenCover(area, plantingDensity, 0.0, duration) == plantingDensity / 4.0
  {
    PowOfOne(duration);
    var a := area * SquareMetresPerHectare;
    var crowns := area * plantingDensity * TreeCoverageArea;
    assert StandingTrees(area, plantingDensity, 0.0, duration) == area * plantingDensity;
    MulMonotone(area * 25.0, plantingDensity, 400.0);
    assert crowns <= a;
    assert crowns / a == plantingDensity / 400.0;
  }

  datatype GreenCoverMetrics = GreenCoverMetrics(initialGreenCover: real, finalGreenCover: real,
                                                 greenCoverIncrease: real)

  datatype CarbonPanelInputs = CarbonPanelInputs(carbonPrice: Option<real>, riskBuffer: Option<real>)

  /** The green-cover and carbon-credit panel: it remembers the last final
      green cover it computed. */
  class GreenCoverPanel {
    var initialGreenCover: real
    var finalGreenCover: real

    constructor()
      ensures initialGreenCover == InitialGreenCover && finalGreenCover == 0.0
    {
      initialGreenCover := InitialGreenCover;
      finalGreenCover := 0.0;
    }

    /** The initial cover is the fixed assumption, whether or not there are
        results. */
    method CalculateInitialGreenCover(hasResults: bool) returns (g: real)
      ensures g == initialGreenCover
    {
      if !hasResults {
        return initialGreenCover;
      }
      return initialGreenCover;
    }

    /** Recomputes the final cover (when the panel is on the page) and the
        increase over the initial cover. */
    method UpdateGreenCoverMetrics(sectionPresent: bool, inputs: EnhancedInputs, duration: nat)
      returns (shown: Option<GreenCoverMetrics>)
      requires sectionPresent ==> inputs.area != 0.0 && inputs.projectDuration == duration as real
      modifies this
      ensures initialGreenCover == old(initialGreenCover)
      ensures !sectionPresent ==> shown.None? && finalGreenCover == old(finalGreenCover)
      ensures sectionPresent ==>
        && finalGreenCover == FinalGreenCover(inputs.area, inputs.plantingDensity, inputs.mortalityRate, duration)
        && shown == Some(GreenCoverMetrics(initialGreenCover, finalGreenCover, finalGreenCover - initialGreenCover))
    {
      if !sectionPresent {
        return None;
      }
      var totalPlantedTrees := inputs.area * inputs.plantingDensity;
      var survivingTreesRatio := ForestCalcs.SurvivalRatio(inputs.mortalityRate, duration);
      var survivingTrees := totalPlantedTrees * survivingTreesRatio;
      var totalCoverageArea := Min(survivingTrees * TreeCoverageArea, inputs.area * SquareMetresPerHectare);
      finalGreenCover := Min(100.0, totalCoverageArea / (inputs.area * SquareMetresPerHectare) * 100.0);
      var greenCoverIncrease := finalGreenCover - initialGreenCover;
      var initial := CalculateInitialGreenCover(true);
      shown := Some(GreenCoverMetrics(initial, finalGreenCover, greenCoverIncrease));
    }
  }

  /** The carbon-credit figures the panel shows for a total: the price
      falls back to 5 and the buffer to 20 when their inputs parse to 0 or
      NaN. */
  function CarbonCreditsCalculation(sectionPresent: bool, totalCO2e: real, inputs: CarbonPanelInputs)
    : (c: Option<ForestDOM.CarbonCreditFigures>)
    ensures !sectionPresent <==> c.None?
    ensures c.Some? ==> c.value.riskBuffer == OrDefault(inputs.riskBuffer, ForestDOM.DefaultRiskBuffer)
    ensures c.Some? ==>
      && c.value.creditsAfterBuffer + totalCO2e * c.value.riskBuffer / 100.0 == totalCO2e
      && c.value.revenue == c.value.creditsAfterBuffer * OrDefault(inputs.carbonPrice, DefaultCarbonPrice)
    ensures c.Some? ==>
      c.value == ForestDOM.CarbonCredits(totalCO2e, OrDefault(inputs.carbonPrice, DefaultCarbonPrice),
                                         Some(OrDefault(inputs.riskBuffer, ForestDOM.DefaultRiskBuffer)))
    ensures c.Some? && (inputs.riskBuffer.None? || inputs.riskBuffer.value == 0.0) ==>
      c.value.creditsAfterBuffer == 0.8 * totalCO2e
    ensures c.Some? && (inputs.carbonPrice.None? || inputs.carbonPrice.value == 0.0) ==>
      c.value.revenue == c.value.creditsAfterBuffer * DefaultCarbonPrice
  {
    if !sectionPresent then None
    else
      var carbonPrice := OrDefault(inputs.carbonPrice, DefaultCarbonPrice);
      var riskBuffer := OrDefault(inputs.riskBuffer, ForestDOM.DefaultRiskBuffer);
      Some(ForestDOM.CarbonCredits(totalCO2e, carbonPrice, Some(riskBuffer)))
  }

  /** Typing into the risk-buffer field: the field shows the buffer (20
      when it parses to 0 or NaN) and, once there are results, the credits
      are recomputed from their total. */
  function OnRiskBufferInput(bufferInput: Option<real>, priceInput: Option<real>,
                             results: Option<ForestCalcs.ResultSet>)
    : (r: (real, Option<ForestDOM.CarbonCreditFigures>))
    ensures r.0 == OrDefault(bufferInput, ForestDOM.DefaultRiskBuffer)
    ensures r.1.Some? <==> results.Some?
    ensures r.1.Some? ==> (
      && r.1.value.riskBuffer == r.0
      && r.1.value == ForestDOM.CarbonCredits(results.value.summary.totalCO2e,
                                              OrDefault(priceInput, DefaultCarbonPrice), Some(r.0)))
  {
    var riskBuffer := OrDefault(bufferInput, ForestDOM.DefaultRiskBuffer);
    if results.Some? then
      (riskBuffer, Some(ForestDOM.CarbonCredits(results.value.summary.totalCO2e,
                                                OrDefault(priceInput, DefaultCarbonPrice), Some(riskBuffer))))
    else (riskBuffer, None)
  }

  datatype BiodiversityMetrics = BiodiversityMetrics(speciesCount: nat, habitatCreation: real,
                                                     potentialSpeciesSupported: int)

  /** Biodiversity counts: the number of species (1 without a species list),
      the habitat area in square metres and five supported species per tree
      species. The logarithmic index is not modelled. */
  function BiodiversityEnhancement(area: real, speciesData: Option<seq<ForestCalcs.Species>>)
    : (b: BiodiversityMetrics)
    ensures b.speciesCount >= 1
    ensures speciesData.Some? && |speciesData.value| > 0 ==> b.speciesCount == |speciesData.value|
    ensures speciesData.None? || |speciesData.value| == 0 ==> b.speciesCount == 1
    ensures b.habitatCreation == area * SquareMetresPerHectare
    ensures b.potentialSpeciesSupported == 5 * b.speciesCount
  {
    var speciesCount: nat := if speciesData.Some? && |speciesData.value| > 0 then |speciesData.value| else 1;
    RoundOfWhole(speciesCount * 5);
    BiodiversityMetrics(speciesCount, area * SquareMetresPerHectare, Round((speciesCount * 5) as real))
  }

  datatype Beneficiaries = Beneficiaries(directBeneficiaries: int, indirectBeneficiaries: int,
                                         totalBeneficiaries: int)

  /** Ten direct and fifty indirect beneficiaries per hectare, rounded;
      unlike the engine's estimate there is no input check. */
  function CalculateBeneficiaries(area: real): (b: Beneficiaries)
    ensures b.totalBeneficiaries == b.directBeneficiaries + b.indirectBeneficiaries
    ensures area * 10.0 - 0.5 < b.directBeneficiaries as real <= area * 10.0 + 0.5
    ensures area * 50.0 - 0.5 < b.indirectBeneficiaries as real <= area * 50.0 + 0.5
  {
    RoundIsNearest(area * 10.0);
    RoundIsNearest(area * 50.0);
    var direct := Round(area * 10.0);
    var indirect := Round(area * 50.0);
    Beneficiaries(direct, indirect, direct + indirect)
  }

  /** For a valid area the two estimates agree on the counts. */
  lemma BeneficiaryEstimatesAgree(area: real, plantingDensity: real)
    requires area >= 0.0 && plantingDensity >= 0.0
    ensures var e := CalculateBeneficiaries(area);
      var c := ForestCalcs.CalculateBeneficiaries(Num(area), Num(plantingDensity));
      && e.directBeneficiaries == c.directBeneficiaries
      && e.indirectBeneficiaries == c.indirectBeneficiaries
      && e.totalBeneficiaries == c.totalBeneficiaries
  {
  }

  /** For a negative area they do not: the engine's estimate is all zero,
      this one is negative. */
  lemma BeneficiaryEstimatesDifferOnNegativeArea()
    ensures CalculateBeneficiaries(-1.0).totalBeneficiaries == -60
    ensures ForestCalcs.CalculateBeneficiaries(Num(-1.0), Num(1.0)).totalBeneficiaries == 0
  {
    RoundOfWhole(-10);
    RoundOfWhole(-50);
  }
}
