/**
 * The forest carbon-sequestration projection engine and its two pure derivers
 * (cost analysis and beneficiaries).
 *
 * For each project year the engine compounds tree survival, converts growing
 * stock to above-ground, below-ground and total biomass, then to carbon and
 * to CO2-equivalent with the molar-mass ratio 44/12, and records the annual
 * increment and the running total.
 */
module ForestCalcs {
  import opened Js

  /** Molar mass of CO2 over molar mass of C. */
  const CO2_FACTOR: real := 44.0 / 12.0

  /** The project parameters the engine reads. */
  datatype ProjectInputs = ProjectInputs(
    area: real,             // hectares
    projectDuration: int,   // years
    plantingDensity: real,  // trees per hectare
    growthRate: real,       // m3 per hectare per year
    mortalityRate: real,    // percent per year
    woodDensity: real,      // tonnes per m3
    bef: real,              // biomass expansion factor
    rsr: real,              // root-to-shoot ratio
    carbonFraction: real)   // carbon fraction of dry biomass

  /** One projected year. */
  datatype YearRecord = YearRecord(
    year: int,
    survivingTrees: int,
    growingStock: real,
    aboveGroundBiomass: real,
    belowGroundBiomass: real,
    totalBiomass: real,
    carbonContent: real,
    co2e: real,
    annualIncrement: real,
    cumulativeCO2e: real)

  datatype Summary = Summary(totalCO2e: real, avgAnnualCO2e: real, finalCarbonStock: real)

  /** One entry of the per-species breakdown of a multi-species run. */
  datatype SpeciesShare = SpeciesShare(name: Value, proportion: real, co2e: real)

  /** The engine's result; `species` is present only for a multi-species run. */
  datatype ResultSet = ResultSet(yearly: seq<YearRecord>, summary: Summary, species: Option<seq<SpeciesShare>>)

  /** One species row as loaded from a species file: every field is whatever
      the CSV parser produced for that column (a number, a boolean, a string,
      or absent). */
  datatype Species = Species(
    name: Value,
    proportion: Value,
    growthRate: Value,
    woodDensity: Value,
    bef: Value,
    rsr: Value,
    carbonFraction: Value)

  /** What the engine needs to run without dividing by zero or reading
      a missing final year. */
  predicate EngineReady(inp: ProjectInputs)
  {
    inp.projectDuration >= 1 && inp.plantingDensity != 0.0
  }

  // ---------------------------------------------------------------------
  // The per-year formulas

  /** Fraction of the planted trees alive after `year` years: mortality is
      compounded annually. */
  function SurvivalRatio(mortalityRate: real, year: nat): real
  {
    Pow(1.0 - mortalityRate / 100.0, year)
  }

  function SurvivingTrees(inp: ProjectInputs, year: nat): int
  {
    Round(inp.area * inp.plantingDensity * SurvivalRatio(inp.mortalityRate, year))
  }

  function GrowingStock(inp: ProjectInputs, year: nat): real
    requires inp.plantingDensity != 0.0
  {
    inp.area * inp.growthRate * (year as real) * SurvivalRatio(inp.mortalityRate, year) / inp.plantingDensity
  }

  function AboveGroundBiomass(inp: ProjectInputs, year: nat): real
    requires inp.plantingDensity != 0.0
  {
    GrowingStock(inp, year) * inp.woodDensity * inp.bef
  }

  function BelowGroundBiomass(inp: ProjectInputs, year: nat): real
    requires inp.plantingDensity != 0.0
  {
    AboveGroundBiomass(inp, year) * inp.rsr
  }

  function TotalBiomass(inp: ProjectInputs, year: nat): real
    requires inp.plantingDensity != 0.0
  {
    AboveGroundBiomass(inp, year) + BelowGroundBiomass(inp, year)
  }

  function CarbonContent(inp: ProjectInputs, year: nat): real
    requires inp.plantingDensity != 0.0
  {
    TotalBiomass(inp, year) * inp.carbonFraction
  }

  /** The CO2-equivalent of the stock standing after `year` years. */
  function Co2eAt(inp: ProjectInputs, year: nat): real
    requires inp.plantingDensity != 0.0
  {
    CarbonContent(inp, year) * CO2_FACTOR
  }

  /** The record the loop appends for `year`, given the co2e it carried from
      the previous year and the running total so far. */
  function YearOf(inp: ProjectInputs, year: nat, previousCO2e: real, cumulativeBefore: real): YearRecord
    requires inp.plantingDensity != 0.0
  {
    var co2e := Co2eAt(inp, year);
    var annualIncrement := if year > 1 then co2e - previousCO2e else co2e;
    YearRecord(
      year,
      SurvivingTrees(inp, year),
      GrowingStock(inp, year),
      AboveGroundBiomass(inp, year),
      BelowGroundBiomass(inp, year),
      TotalBiomass(inp, year),
      CarbonContent(inp, year),
      co2e,
      annualIncrement,
      cumulativeBefore + annualIncrement)
  }

  /** The yearly series for years 1..n, built as the loop builds it: each
      year's increment and running total depend on the record before it. */
  function Yearly(inp: ProjectInputs, n: nat): (ys: seq<YearRecord>)
    requires inp.plantingDensity != 0.0
    ensures |ys| == n
    ensures forall i :: 0 <= i < n ==> ys[i].year == i + 1
  {
    if n == 0 then []
    else
      var prev := Yearly(inp, n - 1);
      var previousCO2e := if n == 1 then 0.0 else prev[n - 2].co2e;
      var cumulative := if n == 1 then 0.0 else prev[n - 2].cumulativeCO2e;
      prev + [YearOf(inp, n, previousCO2e, cumulative)]
  }

  /** The summary is read off the final record only. */
  function SummaryOf(finalYear: YearRecord, projectDuration: int): Summary
    requires projectDuration != 0
  {
    Summary(finalYear.cumulativeCO2e, finalYear.cumulativeCO2e / projectDuration as real, finalYear.carbonContent)
  }

  /** The single-species result, as a value. */
  function Sequestration(inp: ProjectInputs): (r: ResultSet)
    requires EngineReady(inp)
    ensures |r.yearly| == inp.projectDuration && r.species.None?
  {
    var ys := Yearly(inp, inp.projectDuration);
    ResultSet(ys, SummaryOf(ys[|ys| - 1], inp.projectDuration), None)
  }

  /** One pass of the engine's year loop: compounds survival, converts the
      growing stock down the biomass chain to CO2-equivalent, and derives the
      increment over the previous year and the new running total. */
  method ProjectYear(inp: ProjectInputs, year: nat, previousCO2e: real, cumulativeBefore: real)
    returns (record: YearRecord)
    requires inp.plantingDensity != 0.0
    ensures record == YearOf(inp, year, previousCO2e, cumulativeBefore)
  {
    var initialTrees := inp.area * inp.plantingDensity;
    var survivingTreesRatio := SurvivalRatio(inp.mortalityRate, year);
    var survivingTrees := initialTrees * survivingTreesRatio;
    var growingStock := inp.area * inp.growthRate * (year as real) * survivingTreesRatio / inp.plantingDensity;
    var aboveGroundBiomass := growingStock * inp.woodDensity * inp.bef;
    var belowGroundBiomass := aboveGroundBiomass * inp.rsr;
    var totalBiomass := aboveGroundBiomass + belowGroundBiomass;
    var carbonContent := totalBiomass * inp.carbonFraction;
    var co2e := carbonContent * CO2_FACTOR;
    var annualIncrement := if year > 1 then co2e - previousCO2e else co2e;
    record := YearRecord(year, Round(survivingTrees), growingStock, aboveGroundBiomass,
                         belowGroundBiomass, totalBiomass, carbonContent, co2e,
                         annualIncrement, cumulativeBefore + annualIncrement);
  }

  /** The single-species engine: a year loop carrying the previous year's
      co2e and the running total, appending one record per year. */
  method CalculateSequestration(inp: ProjectInputs) returns (r: ResultSet)
    requires EngineReady(inp)
    ensures r == Sequestration(inp)
    ensures |r.yearly| == inp.projectDuration
    ensures r.summary.totalCO2e == r.yearly[|r.yearly| - 1].cumulativeCO2e
    ensures r.summary.finalCarbonStock == r.yearly[|r.yearly| - 1].carbonContent
  {
    var yearly: seq<YearRecord> := [];
    var cumulativeCO2e := 0.0;
    var previousCO2e := 0.0;
    var year := 1;
    while year <= inp.projectDuration
      invariant 1 <= year <= inp.projectDuration + 1
      invariant yearly == Yearly(inp, year - 1)
      invariant previousCO2e == if year == 1 then 0.0 else yearly[year - 2].co2e
      invariant cumulativeCO2e == if year == 1 then 0.0 else yearly[year - 2].cumulativeCO2e
    {
      ghost var expected := YearOf(inp, year, previousCO2e, cumulativeCO2e);
      assert Yearly(inp, year) == yearly + [expected];
      var record := ProjectYear(inp, year, previousCO2e, cumulativeCO2e);
      previousCO2e := record.co2e;
      cumulativeCO2e := record.cumulativeCO2e;
      yearly := yearly + [record];
      year := year + 1;
    }
    var finalYear := yearly[|yearly| - 1];
    r := ResultSet(yearly, Summary(finalYear.cumulativeCO2e,
                                   finalYear.cumulativeCO2e / inp.projectDuration as real,
                                   finalYear.carbonContent), None);
  }

  // ---------------------------------------------------------------------
  // Properties of the projection

  /** An independent, closed-form description of year `year`: the increment is
      the difference of two consecutive stocks and the running total is the
      stock itself. */
  function ReferenceYear(inp: ProjectInputs, year: nat): YearRecord
    requires inp.plantingDensity != 0.0 && year >= 1
  {
    YearRecord(
      year,
      SurvivingTrees(inp, year),
      GrowingStock(inp, year),
      AboveGroundBiomass(inp, year),
      BelowGroundBiomass(inp, year),
      TotalBiomass(inp, year),
      CarbonContent(inp, year),
      Co2eAt(inp, year),
      Co2eAt(inp, year) - Co2eAt(inp, year - 1),
      Co2eAt(inp, year))
  }

  /** Before any growth there is no stock. */
  lemma NoStockAtYearZero(inp: ProjectInputs)
    requires inp.plantingDensity != 0.0
    ensures Co2eAt(inp, 0) == 0.0
  {
    assert GrowingStock(inp, 0) == 0.0;
  }

  /** Every record the loop produces agrees with the closed form. */
  lemma {:induction false} YearAt(inp: ProjectInputs, n: nat, i: nat)
    requires inp.plantingDensity != 0.0 && i < n
    ensures Yearly(inp, n)[i] == ReferenceYear(inp, i + 1)
  {
    var ys := Yearly(inp, n);
    var prev := Yearly(inp, n - 1);
    if i < n - 1 {
      assert ys[i] == prev[i];
      YearAt(inp, n - 1, i);
    } else if n == 1 {
      NoStockAtYearZero(inp);
    } else {
      YearAt(inp, n - 1, n - 2);
    }
  }

  /** Over the reals the running total of increments equals that year's stock. */
  lemma CumulativeEqualsCo2e(inp: ProjectInputs, n: nat)
    requires inp.plantingDensity != 0.0
    ensures forall i :: 0 <= i < n ==> Yearly(inp, n)[i].cumulativeCO2e == Yearly(inp, n)[i].co2e
  {
    forall i | 0 <= i < n
      ensures Yearly(inp, n)[i].cumulativeCO2e == Yearly(inp, n)[i].co2e
    {
      YearAt(inp, n, i);
    }
  }

  /** Year 1's increment is its co2e; each later year's is the change in co2e. */
  lemma IncrementIsChange(inp: ProjectInputs, n: nat)
    requires inp.plantingDensity != 0.0
    ensures n >= 1 ==> Yearly(inp, n)[0].annualIncrement == Yearly(inp, n)[0].co2e
    ensures forall i :: 1 <= i < n ==>
      Yearly(inp, n)[i].annualIncrement == Yearly(inp, n)[i].co2e - Yearly(inp, n)[i - 1].co2e
  {
    if n >= 1 {
      YearAt(inp, n, 0);
      NoStockAtYearZero(inp);
    }
    forall i | 1 <= i < n
      ensures Yearly(inp, n)[i].annualIncrement == Yearly(inp, n)[i].co2e - Yearly(inp, n)[i - 1].co2e
    {
      YearAt(inp, n, i);
      YearAt(inp, n, i - 1);
    }
  }

  /** The growing stock of year y is the area's yearly growth, accumulated
      over y years, scaled by the survival ratio and spread over the planting
      density. */
  lemma GrowingStockInRecord(inp: ProjectInputs, n: nat, year: nat)
    requires inp.plantingDensity != 0.0 && 1 <= year <= n
    ensures Yearly(inp, n)[year - 1].year == year
    ensures Yearly(inp, n)[year - 1].growingStock
      == inp.area * inp.growthRate * (year as real) * SurvivalRatio(inp.mortalityRate, year) / inp.plantingDensity
  {
    YearAt(inp, n, year - 1);
    assert Yearly(inp, n)[year - 1].growingStock == GrowingStock(inp, year);
    GrowingStockFormula(inp, year);
  }

  lemma GrowingStockFormula(inp: ProjectInputs, year: nat)
    requires inp.plantingDensity != 0.0
    ensures GrowingStock(inp, year)
      == inp.area * inp.growthRate * (year as real) * SurvivalRatio(inp.mortalityRate, year) / inp.plantingDensity
  {
  }

  /** The mass chain of one record: growing stock, then above-ground,
      below-ground and total biomass, then carbon, then CO2e. */
  predicate MassChain(inp: ProjectInputs, r: YearRecord)
  {
    && r.aboveGroundBiomass == r.growingStock * inp.woodDensity * inp.bef
    && r.belowGroundBiomass == r.aboveGroundBiomass * inp.rsr
    && r.totalBiomass == r.aboveGroundBiomass * (1.0 + inp.rsr)
    && r.carbonContent == r.totalBiomass * inp.carbonFraction
    && r.co2e == r.carbonContent * 44.0 / 12.0
  }

  /** The mass chain holds in every record the loop produces. */
  lemma ConversionChain(inp: ProjectInputs, n: nat, i: nat)
    requires inp.plantingDensity != 0.0 && i < n
    ensures MassChain(inp, Yearly(inp, n)[i])
  {
    YearAt(inp, n, i);
    ReferenceChain(inp, i + 1);
  }

  lemma ReferenceChain(inp: ProjectInputs, year: nat)
    requires inp.plantingDensity != 0.0 && year >= 1
    ensures MassChain(inp, ReferenceYear(inp, year))
  {
  }

  /** Sum of the annual increments of a series. */
  function SumIncrements(ys: seq<YearRecord>): real
  {
    if ys == [] then 0.0 else SumIncrements(ys[..|ys| - 1]) + ys[|ys| - 1].annualIncrement
  }

  lemma {:induction false} YearlyPrefix(inp: ProjectInputs, n: nat, m: nat)
    requires inp.plantingDensity != 0.0 && m <= n
    ensures Yearly(inp, n)[..m] == Yearly(inp, m)
  {
    forall i | 0 <= i < m
      ensures Yearly(inp, n)[i] == Yearly(inp, m)[i]
    {
      YearAt(inp, n, i);
      YearAt(inp, m, i);
    }
  }

  /** The increments telescope: their sum over years 1..n is the final stock. */
  lemma {:induction false} IncrementsTelescope(inp: ProjectInputs, n: nat)
    requires inp.plantingDensity != 0.0
    ensures SumIncrements(Yearly(inp, n)) == Co2eAt(inp, n)
  {
    if n == 0 {
      NoStockAtYearZero(inp);
    } else {
      IncrementsTelescope(inp, n - 1);
      YearlyPrefix(inp, n, n - 1);
      YearAt(inp, n, n - 1);
    }
  }

  /** The summary is derived from the last record: the total is the final
      running total (the final stock), the average divides it by the duration,
      the final carbon stock is the last carbon content. */
  lemma SequestrationSummary(inp: ProjectInputs)
    requires EngineReady(inp)
    ensures var r := Sequestration(inp);
      && |r.yearly| == inp.projectDuration
      && (forall i :: 0 <= i < |r.yearly| ==> r.yearly[i].year == i + 1)
      && r.summary.totalCO2e == r.yearly[|r.yearly| - 1].cumulativeCO2e == Co2eAt(inp, inp.projectDuration)
      && r.summary.avgAnnualCO2e * (inp.projectDuration as real) == r.summary.totalCO2e
      && r.summary.finalCarbonStock == r.yearly[|r.yearly| - 1].carbonContent
                                    == CarbonContent(inp, inp.projectDuration)
      && r.summary.totalCO2e == SumIncrements(r.yearly)
  {
    var n := inp.projectDuration;
    var ys := Yearly(inp, n);
    var r := Sequestration(inp);
    assert r.yearly == ys;
    YearAt(inp, n, n - 1);
    var last := ys[n - 1];
    assert last == ReferenceYear(inp, n);
    assert r.summary == SummaryOf(last, n);
    IncrementsTelescope(inp, n);
    QuotientTimesDivisor(last.cumulativeCO2e, n as real);
  }

  lemma QuotientTimesDivisor(x: real, d: real)
    requires d != 0.0
    ensures (x / d) * d == x
  {
  }

  /** With a mortality rate between 0 and 100 the survival ratio is a fraction
      that never increases from one year to the next. */
  lemma SurvivalRatioBounds(mortalityRate: real, year: nat)
    requires 0.0 <= mortalityRate <= 100.0
    ensures 0.0 <= SurvivalRatio(mortalityRate, year) <= 1.0
    ensures SurvivalRatio(mortalityRate, year + 1) <= SurvivalRatio(mortalityRate, year)
  {
    PowInUnitInterval(1.0 - mortalityRate / 100.0, year);
    PowStep(1.0 - mortalityRate / 100.0, year);
  }

  /** Surviving trees never increase over the projection. */
  lemma SurvivorsNonIncreasing(inp: ProjectInputs, n: nat, i: nat, j: nat)
    requires inp.plantingDensity != 0.0 && 0.0 <= inp.mortalityRate <= 100.0
    requires inp.area * inp.plantingDensity >= 0.0
    requires i <= j < n
    ensures Yearly(inp, n)[j].survivingTrees <= Yearly(inp, n)[i].survivingTrees
  {
    YearAt(inp, n, i);
    YearAt(inp, n, j);
    SurvivingTreesMonotone(inp, i + 1, j + 1);
  }

  lemma SurvivingTreesMonotone(inp: ProjectInputs, a: nat, b: nat)
    requires 0.0 <= inp.mortalityRate <= 100.0
    requires inp.area * inp.plantingDensity >= 0.0
    requires a <= b
    ensures SurvivingTrees(inp, b) <= SurvivingTrees(inp, a)
  {
    var ra := SurvivalRatio(inp.mortalityRate, a);
    var rb := SurvivalRatio(inp.mortalityRate, b);
    PowNonIncreasing(1.0 - inp.mortalityRate / 100.0, a, b);
    var t := inp.area * inp.plantingDensity;
    MulMonotone(t, rb, ra);
    RoundMonotone(t * rb, t * ra);
  }

  /** No mortality: every year keeps all planted trees. */
  lemma SurvivorsWithoutMortality(inp: ProjectInputs, n: nat)
    requires inp.plantingDensity != 0.0 && inp.mortalityRate == 0.0
    ensures forall i :: 0 <= i < n ==>
      Yearly(inp, n)[i].survivingTrees == Round(inp.area * inp.plantingDensity)
  {
    forall i | 0 <= i < n
      ensures Yearly(inp, n)[i].survivingTrees == Round(inp.area * inp.plantingDensity)
    {
      YearAt(inp, n, i);
      assert Yearly(inp, n)[i].survivingTrees == SurvivingTrees(inp, i + 1);
      PowOfOne(i + 1);
      assert SurvivalRatio(inp.mortalityRate, i + 1) == 1.0;
      assert inp.area * inp.plantingDensity * SurvivalRatio(inp.mortalityRate, i + 1)
          == inp.area * inp.plantingDensity;
    }
  }

  /** Total mortality: no tree survives any year. */
  lemma SurvivorsWithTotalMortality(inp: ProjectInputs, n: nat)
    requires inp.plantingDensity != 0.0 && inp.mortalityRate == 100.0
    ensures forall i :: 0 <= i < n ==> Yearly(inp, n)[i].survivingTrees == 0
  {
    forall i | 0 <= i < n
      ensures Yearly(inp, n)[i].survivingTrees == 0
    {
      YearAt(inp, n, i);
      PowOfZero(i + 1);
      RoundOfWhole(0);
    }
  }

  /** The CO2e of one year's growth when no tree dies. */
  function UnitCo2e(inp: ProjectInputs): real
    requires inp.plantingDensity != 0.0
  {
    inp.area * inp.growthRate / inp.plantingDensity * inp.woodDensity * inp.bef
      * (1.0 + inp.rsr) * inp.carbonFraction * CO2_FACTOR
  }

  lemma Co2eLinearWithoutMortality(inp: ProjectInputs, year: nat)
    requires inp.plantingDensity != 0.0 && inp.mortalityRate == 0.0
    ensures Co2eAt(inp, year) == (year as real) * UnitCo2e(inp)
  {
    PowOfOne(year);
    var y := year as real;
    var g := inp.area * inp.growthRate / inp.plantingDensity;
    assert GrowingStock(inp, year) == g * y;
    var agb := g * y * inp.woodDensity * inp.bef;
    assert AboveGroundBiomass(inp, year) == agb;
    assert TotalBiomass(inp, year) == agb * (1.0 + inp.rsr);
  }

  lemma UnitCo2eNonNegative(inp: ProjectInputs)
    requires inp.plantingDensity > 0.0
    requires inp.area >= 0.0 && inp.growthRate >= 0.0 && inp.woodDensity >= 0.0
    requires inp.bef >= 0.0 && inp.rsr >= 0.0 && inp.carbonFraction >= 0.0
    ensures UnitCo2e(inp) >= 0.0
  {
    var g := inp.area * inp.growthRate;
    assert g >= 0.0;
    var g1 := g / inp.plantingDensity;
    assert g1 >= 0.0;
    var g2 := g1 * inp.woodDensity;
    assert g2 >= 0.0;
    var g3 := g2 * inp.bef;
    assert g3 >= 0.0;
    var g4 := g3 * (1.0 + inp.rsr);
    assert g4 >= 0.0;
    var g5 := g4 * inp.carbonFraction;
    assert g5 >= 0.0;
  }

  /** Without mortality and with non-negative parameters the stock grows
      linearly with the year, so the running total never falls. */
  lemma CumulativeGrowsWithoutMortality(inp: ProjectInputs, n: nat, a: nat, b: nat)
    requires inp.plantingDensity > 0.0 && inp.mortalityRate == 0.0
    requires inp.area >= 0.0 && inp.growthRate >= 0.0 && inp.woodDensity >= 0.0
    requires inp.bef >= 0.0 && inp.rsr >= 0.0 && inp.carbonFraction >= 0.0
    requires 1 <= a <= b <= n
    ensures Yearly(inp, n)[a - 1].cumulativeCO2e <= Yearly(inp, n)[b - 1].cumulativeCO2e
  {
    var ys := Yearly(inp, n);
    YearAt(inp, n, a - 1);
    YearAt(inp, n, b - 1);
    assert ys[a - 1].cumulativeCO2e == Co2eAt(inp, a);
    assert ys[b - 1].cumulativeCO2e == Co2eAt(inp, b);
    StockGrowsWithoutMortality(inp, a, b);
  }

  /** Without mortality a later year never holds less stock. */
  lemma StockGrowsWithoutMortality(inp: ProjectInputs, a: nat, b: nat)
    requires inp.plantingDensity > 0.0 && inp.mortalityRate == 0.0
    requires inp.area >= 0.0 && inp.growthRate >= 0.0 && inp.woodDensity >= 0.0
    requires inp.bef >= 0.0 && inp.rsr >= 0.0 && inp.carbonFraction >= 0.0
    requires a <= b
    ensures Co2eAt(inp, a) <= Co2eAt(inp, b)
  {
    var k := UnitCo2e(inp);
    UnitCo2eNonNegative(inp);
    Co2eLinearWithoutMortality(inp, a);
    Co2eLinearWithoutMortality(inp, b);
    MulMonotone(k, a as real, b as real);
    LinearTimesCommute(Co2eAt(inp, a), a as real, k);
    LinearTimesCommute(Co2eAt(inp, b), b as real, k);
    assert Co2eAt(inp, a) == k * (a as real);
    assert Co2eAt(inp, b) == k * (b as real);
    assert k * (a as real) <= k * (b as real);
  }

  lemma LinearTimesCommute(c: real, x: real, k: real)
    requires c == x * k
    ensures c == k * x
  {
  }



  /** With mortality the running total can fall: at 50% mortality the stock
      of year 3 is below that of year 2. */
  lemma CumulativeCanFallWithMortality()
    ensures var inp := ProjectInputs(1.0, 3, 1.0, 1.0, 50.0, 1.0, 1.0, 0.0, 1.0);
      Yearly(inp, 3)[2].cumulativeCO2e < Yearly(inp, 3)[1].cumulativeCO2e
  {
    var inp := ProjectInputs(1.0, 3, 1.0, 1.0, 50.0, 1.0, 1.0, 0.0, 1.0);
    YearAt(inp, 3, 1);
    YearAt(inp, 3, 2);
    assert Pow(0.5, 2) == 0.25;
    assert Pow(0.5, 3) == 0.125;
  }

  // ---------------------------------------------------------------------
  // Derivers

  datatype CostAnalysis = CostAnalysis(
    costPerTonne: real,
    costPerHectare: real,
    establishmentCost: real,
    maintenanceCost: real,
    monitoringCost: real)

  /** Cost per tonne and per hectare, and the fixed 60/30/10 split of the
      project cost into establishment, maintenance and monitoring. Neither
      division is guarded in the source. */
  function ForestCostAnalysis(projectCost: real, area: real, results: ResultSet): (c: CostAnalysis)
    requires results.summary.totalCO2e != 0.0 && area != 0.0
    ensures c.costPerTonne * results.summary.totalCO2e == projectCost
    ensures c.costPerHectare * area == projectCost
    ensures c.establishmentCost + c.maintenanceCost + c.monitoringCost == projectCost
    ensures c.establishmentCost == 2.0 * c.maintenanceCost == 6.0 * c.monitoringCost
    ensures c.monitoringCost * 10.0 == projectCost
  {
    CostAnalysis(
      projectCost / results.summary.totalCO2e,
      projectCost / area,
      projectCost * 0.6,
      projectCost * 0.3,
      projectCost * 0.1)
  }

  datatype ForestBeneficiaries = ForestBeneficiaries(
    directBeneficiaries: int,
    indirectBeneficiaries: int,
    totalBeneficiaries: int,
    beneficiariesFactor: real)

  /** Area and planting density pass the guard when both are numbers and
      neither is negative. */
  predicate BeneficiaryInputsValid(area: Value, plantingDensity: Value)
  {
    area.Num? && area.n >= 0.0 && plantingDensity.Num? && plantingDensity.n >= 0.0
  }

  /** Ten direct and fifty indirect beneficiaries per hectare (rounded), and
      beneficiaries per planted tree; an all-zero record for invalid input. */
  function CalculateBeneficiaries(area: Value, plantingDensity: Value): (b: ForestBeneficiaries)
    ensures !BeneficiaryInputsValid(area, plantingDensity) ==> b == ForestBeneficiaries(0, 0, 0, 0.0)
    ensures BeneficiaryInputsValid(area, plantingDensity) ==>
      && b.directBeneficiaries == Round(area.n * 10.0)
      && b.indirectBeneficiaries == Round(area.n * 50.0)
    ensures b.totalBeneficiaries == b.directBeneficiaries + b.indirectBeneficiaries
    ensures BeneficiaryInputsValid(area, plantingDensity) && area.n * plantingDensity.n > 0.0 ==>
      b.beneficiariesFactor * (area.n * plantingDensity.n) == b.totalBeneficiaries as real
    ensures BeneficiaryInputsValid(area, plantingDensity) && area.n * plantingDensity.n == 0.0 ==>
      b.beneficiariesFactor == 0.0
  {
    if !BeneficiaryInputsValid(area, plantingDensity) then
      ForestBeneficiaries(0, 0, 0, 0.0)
    else
      var treesPlanted := area.n * plantingDensity.n;
      var direct := Round(area.n * 10.0);
      var indirect := Round(area.n * 50.0);
      var total := direct + indirect;
      var factor := if treesPlanted > 0.0 then total as real / treesPlanted else 0.0;
      ForestBeneficiaries(direct, indirect, total, factor)
  }

  /** For valid input the counts are non-negative, within half a person of
      the per-hectare rates, and direct never exceeds indirect. */
  lemma BeneficiaryBounds(area: Value, plantingDensity: Value)
    requires BeneficiaryInputsValid(area, plantingDensity)
    ensures var b := CalculateBeneficiaries(area, plantingDensity);
      && 0 <= b.directBeneficiaries <= b.indirectBeneficiaries
      && area.n * 10.0 - 0.5 < b.directBeneficiaries as real <= area.n * 10.0 + 0.5
      && area.n * 50.0 - 0.5 < b.indirectBeneficiaries as real <= area.n * 50.0 + 0.5
      && b.beneficiariesFactor >= 0.0
  {
    var b := CalculateBeneficiaries(area, plantingDensity);
    RoundNonNegative(area.n * 10.0);
    RoundMonotone(area.n * 10.0, area.n * 50.0);
    RoundIsNearest(area.n * 10.0);
    RoundIsNearest(area.n * 50.0);
    var t := area.n * plantingDensity.n;
    if t > 0.0 {
      assert b.totalBeneficiaries >= 0;
      assert b.beneficiariesFactor == b.totalBeneficiaries as real / t;
    }
  }
}
