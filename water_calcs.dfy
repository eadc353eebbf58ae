/**
 * The water module's five formulas: water captured per year and over a
 * fixed ten-year horizon, energy saved per year, and the emissions that
 * energy would have caused, per year and over the same horizon.
 */
module WaterCalcs {

  /** The horizon of both cumulative figures, fixed at ten years whatever the
      project's own duration. */
  const HorizonYears: nat := 10

  /** Tonnes of CO2e per kWh saved. */
  const EmissionsFactor: real := 0.000233

  /** The annual figures a water run reports (the calculation that produces
      them is not part of this model). */
  datatype WaterSummary = WaterSummary(annualWaterCaptured: real, annualEnergySaved: real,
                                       annualEmissionsReduction: real)

  datatype WaterResults = WaterResults(summary: WaterSummary)

  /** A reference total: `perYear` added up over `years` years. */
  function HorizonTotal(perYear: real, years: nat): real
  {
    if years == 0 then 0.0 else HorizonTotal(perYear, years - 1) + perYear
  }

  /** Adding a yearly amount up over n years is multiplying it by n. */
  lemma {:induction false} HorizonTotalIsProduct(perYear: real, years: nat)
    ensures HorizonTotal(perYear, years) == perYear * (years as real)
  {
    if years > 0 {
      HorizonTotalIsProduct(perYear, years - 1);
    }
  }

  /** Rainfall times catchment area times capture efficiency, in kilolitres. */
  function AnnualWaterCaptured(rainfall: real, catchmentArea: real, efficiency: real): (w: real)
    ensures rainfall == 0.0 || catchmentArea == 0.0 || efficiency == 0.0 ==> w == 0.0
    ensures rainfall >= 0.0 && catchmentArea >= 0.0 && efficiency >= 0.0 ==> w >= 0.0
  {
    rainfall * catchmentArea * efficiency
  }

  /** The water captured over the ten-year horizon. */
  function CumulativeWater(annualWaterCaptured: real): (c: real)
    ensures c == HorizonTotal(annualWaterCaptured, HorizonYears)
  {
    HorizonTotalIsProduct(annualWaterCaptured, HorizonYears);
    annualWaterCaptured * (HorizonYears as real)
  }

  /** Water pumped times the energy it takes per unit, in kWh. */
  function AnnualEnergySaved(waterPumped: real, energyEfficiency: real): (e: real)
    ensures waterPumped == 0.0 || energyEfficiency == 0.0 ==> e == 0.0
    ensures waterPumped >= 0.0 && energyEfficiency >= 0.0 ==> e >= 0.0
  {
    waterPumped * energyEfficiency
  }

  /** The emissions avoided by the energy saved, in tonnes of CO2e: a small
      non-negative fraction of the kWh figure. */
  function AnnualEmissionsReduction(annualEnergySaved: real): (t: real)
    ensures annualEnergySaved >= 0.0 ==> 0.0 <= t <= annualEnergySaved
    ensures annualEnergySaved == 0.0 <==> t == 0.0
    ensures t * 1000000.0 == annualEnergySaved * 233.0
  {
    annualEnergySaved * EmissionsFactor
  }

  /** The emissions avoided over the ten-year horizon. */
  function CumulativeEmissions(annualEmissionsReduction: real): (c: real)
    ensures c == HorizonTotal(annualEmissionsReduction, HorizonYears)
  {
    HorizonTotalIsProduct(annualEmissionsReduction, HorizonYears);
    annualEmissionsReduction * (HorizonYears as real)
  }

  /** From energy saved to emissions avoided over the horizon: ten years at
      0.000233 t per kWh is 0.00233 t per kWh of yearly saving, and nothing
      saved means nothing avoided. */
  lemma EmissionsOverHorizon(annualEnergySaved: real)
    ensures CumulativeEmissions(AnnualEmissionsReduction(annualEnergySaved)) == annualEnergySaved * 0.00233
    ensures annualEnergySaved == 0.0 ==> CumulativeEmissions(AnnualEmissionsReduction(annualEnergySaved)) == 0.0
  {
  }

  /** Both cumulative figures are the same ten-fold multiple of their
      yearly figure, whatever the project duration. */
  lemma CumulativeIsTenYears(annual: real)
    ensures CumulativeWater(annual) == 10.0 * annual
    ensures CumulativeEmissions(annual) == 10.0 * annual
  {
  }

  /** The cumulative water is the yearly capture added up over the
      ten-year horizon: ten times rainfall × area × efficiency. */
  lemma WaterOverHorizon(rainfall: real, catchmentArea: real, efficiency: real)
    ensures CumulativeWater(AnnualWaterCaptured(rainfall, catchmentArea, efficiency))
         == HorizonTotal(rainfall * catchmentArea * efficiency, HorizonYears)
    ensures CumulativeWater(AnnualWaterCaptured(rainfall, catchmentArea, efficiency))
         == 10.0 * (rainfall * catchmentArea * efficiency)
  {
  }

  /** From pumping to emissions avoided over the horizon: water pumped ×
      energy per unit, at 0.000233 t per kWh, over ten years. */
  lemma PumpingOverHorizon(waterPumped: real, energyEfficiency: real)
    ensures CumulativeEmissions(AnnualEmissionsReduction(AnnualEnergySaved(waterPumped, energyEfficiency)))
         == (waterPumped * energyEfficiency) * 0.00233
  {
    EmissionsOverHorizon(AnnualEnergySaved(waterPumped, energyEfficiency));
  }
}
