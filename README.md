# Carbon sequestration calculator — a Dafny model

This project models the calculation core of a browser-based carbon
sequestration calculator with two modules, forest and water.

The **forest** module projects a planting project year by year:
- survival is compounded by the mortality rate;
- the growing stock is converted to above- and below-ground biomass, then
  to carbon, then to CO2-equivalent (the 44/12 molar-mass ratio);
- each year's increment is the change in CO2e, and the running total keeps
  their sum;
- a summary is read off the last year.

Around the forest engine the model covers:
- the multi-species run: one engine run per species on its share of the
  area, with the yearly series merged in place;
- the cost and beneficiary derivers;
- the callback registry;
- the species-list validator and CSV column check;
- the loaded-species store and the export table;
- the carbon-credit arithmetic;
- the green-cover, biodiversity and beneficiary estimates of the extended
  panel;
- the result slot of the forest controller.

The **water** module covers:
- the five capture, energy and emissions formulas (ten-year horizon);
- the seasonal, water-quality, flood and biodiversity estimates;
- form reading with defaults;
- validation, where the first failing check is reported;
- the result slot;
- the list of entries.

JavaScript numbers are `real`. `Math.round(x)` is `(x + 1/2).Floor` (`Js.Round`).
`Math.pow` with a whole exponent is a recursive power (`Js.Pow`). A value
whose type the code inspects at run time (a CSV cell, a species override) is
a `Js.Value`: a number, a boolean, a string or absent. `parseFloat(x) || d` is
`Js.OrDefault`, with `None` standing for NaN.

The code divides without guards: by the planting density, by the total CO2e,
by the area and by the duration. It also reads the last yearly record without
a check. The model makes each of these a precondition: `EngineReady` requires
a non-zero density and at least one year.

Imperative code is modelled as imperative Dafny:
- the year loop (`ForestCalcs.CalculateSequestration`) is proved equal to
  the recursive specification `ForestCalcs.Sequestration`;
- the multi-species loop, with its in-place merge
  (`ForestMultiSpecies.CalculateSequestrationMultiSpecies`), is proved equal
  to the left fold `ForestMultiSpecies.MultiSpecies`;
- the row-by-row species validation is proved equal to
  `ForestIO.SpeciesCheck`;
- the callback registry, the species store, the green-cover panel, both
  result slots and the water list are classes whose methods state their
  new state.

Two behaviours of the code are worth stating on their own:
- **Running CO2e total.** The increments telescope, so the running total
  always equals the standing stock of that year.
  - With mortality the standing stock shrinks and the running total falls
    with it (`ForestCalcs.CumulativeCanFallWithMortality`).
  - Without mortality it never falls (`ForestCalcs.CumulativeGrowsWithoutMortality`).
- **Water formulas.** Water captured is rainfall × catchment area ×
  efficiency, emissions avoided are 0.000233 t CO2e per kWh saved, and the
  cumulative water and emissions figures use a fixed ten-year horizon
  whatever the project's duration.

## Model

| member | source | states |
|---|---|---|
| ForestCalcs.Yearly | forest/forestCalcs.js:122-167 | the yearly series for N years has N records numbered 1..N in order |
| ForestCalcs.Sequestration | forest/forestCalcs.js:92-176 | a single-species run has one record per project year and no species breakdown |
| ForestCalcs.ProjectYear | forest/forestCalcs.js:123-166 | one pass of the year loop produces the record of the closed-form year function for that year and carried co2e |
| ForestCalcs.CalculateSequestration | forest/forestCalcs.js:92-176 | the year loop equals the specification run; it has projectDuration records, and the total and final carbon stock are the last record's running total and carbon content |
| ForestCalcs.NoStockAtYearZero | forest/forestCalcs.js:124-145 | at year 0 the CO2e stock is zero, which is what the first increment is measured from |
| ForestCalcs.YearAt | forest/forestCalcs.js:122-166 | every record of the loop equals an independent closed form: the increment is the stock change since the previous year and the running total is that year's stock |
| ForestCalcs.CumulativeEqualsCo2e | forest/forestCalcs.js:147-152 | over the reals each year's running total equals that year's co2e |
| ForestCalcs.IncrementIsChange | forest/forestCalcs.js:148-149 | year 1's increment is its co2e and every later increment is co2e minus the previous year's co2e |
| ForestCalcs.GrowingStockInRecord | forest/forestCalcs.js:124-129 | the record for year y has year y and growing stock area × growthRate × y × (1 − m/100)^y / plantingDensity |
| ForestCalcs.ConversionChain | forest/forestCalcs.js:131-145 | in every record AGB = stock × woodDensity × bef, BGB = AGB × rsr, total = AGB × (1 + rsr), carbon = total × carbonFraction, co2e = carbon × 44/12 |
| ForestCalcs.YearlyPrefix | forest/forestCalcs.js:122-166 | the first m records of an n-year run are the m-year run, since later years do not change earlier records |
| ForestCalcs.IncrementsTelescope | forest/forestCalcs.js:148-152 | the increments of years 1..n sum to the stock of year n |
| ForestCalcs.SequestrationSummary | forest/forestCalcs.js:169-173 | total = last running total = final stock = sum of increments; average × duration = total; final carbon stock = last carbon content |
| ForestCalcs.SurvivalRatioBounds | forest/forestCalcs.js:124 | with mortality in [0, 100] the survival ratio lies in [0, 1] and does not increase from one year to the next |
| ForestCalcs.SurvivorsNonIncreasing | forest/forestCalcs.js:124-157 | with mortality in [0, 100] and non-negative planted trees, the surviving-tree count never increases over the years |
| ForestCalcs.SurvivorsWithoutMortality | forest/forestCalcs.js:116-157 | zero mortality keeps round(area × density) trees every year |
| ForestCalcs.SurvivorsWithTotalMortality | forest/forestCalcs.js:124-157 | 100 percent mortality leaves no tree in any year |
| ForestCalcs.Co2eLinearWithoutMortality | forest/forestCalcs.js:124-145 | without mortality the stock of year y is y times the stock of one year's growth |
| ForestCalcs.UnitCo2eNonNegative | forest/forestCalcs.js:129-145 | with non-negative parameters and positive density, one year's growth holds non-negative CO2e |
| ForestCalcs.CumulativeGrowsWithoutMortality | forest/forestCalcs.js:147-152 | without mortality and with non-negative parameters, the running total never falls between two years |
| ForestCalcs.StockGrowsWithoutMortality | forest/forestCalcs.js:124-145 | without mortality and with non-negative parameters a later year never holds less CO2e |
| ForestCalcs.CumulativeCanFallWithMortality | forest/forestCalcs.js:147-152 | at 50 percent mortality the running total of year 3 is below that of year 2 |
| ForestCalcs.ForestCostAnalysis | forest/forestCalcs.js:255-275 | costPerTonne × total = cost; costPerHectare × area = cost; the three shares add up to the cost in ratio 6:3:1 |
| ForestCalcs.CalculateBeneficiaries | forest/forestCalcs.js:298-336 | invalid area or density gives an all-zero record; otherwise direct = round(10 × area), indirect = round(50 × area), total = their sum, factor × trees planted = total |
| ForestCalcs.BeneficiaryBounds | forest/forestCalcs.js:312-328 | for valid input the counts are non-negative, within half a person of 10 and 50 per hectare, direct ≤ indirect, and the factor is non-negative |
| ForestMultiSpecies.SpeciesInputs | forest/forestCalcs.js:199-207 | a species runs on area × proportion; a truthy numeric override replaces the base value, `true` counts as 1, and a falsy one keeps the base; the other inputs are unchanged and the engine stays runnable |
| ForestMultiSpecies.MergeYearly | forest/forestCalcs.js:233-238 | merging keeps the number of yearly records |
| ForestMultiSpecies.MergeInto | forest/forestCalcs.js:234-238 | the index-by-index loop leaves exactly the merged records: each later species' co2e, increment and running total added in, every other field kept |
| ForestMultiSpecies.Accumulate | forest/forestCalcs.js:197-240 | after the loop there is one share per species, and the yearly series is empty for no species and projectDuration long otherwise |
| ForestMultiSpecies.MultiSpecies | forest/forestCalcs.js:184-246 | a multi-species result lists one share per input species |
| ForestMultiSpecies.CalculateSequestrationMultiSpecies | forest/forestCalcs.js:184-246 | the species loop, with its in-place merge of the yearly records, equals the fold specification |
| ForestMultiSpecies.AccumulatedColumn | forest/forestCalcs.js:224-239 | after the loop each merged year's co2e, increment and running total is the sum over species of that column |
| ForestMultiSpecies.AccumulatedTotals | forest/forestCalcs.js:219-221 | the summary total and final carbon stock are the sums of the species' own summaries |
| ForestMultiSpecies.AccumulatedUnsummed | forest/forestCalcs.js:226-232 | every non-summed field of a merged year is the first species' value |
| ForestMultiSpecies.AccumulatedShares | forest/forestCalcs.js:212-217 | share k holds species k's name and proportion and its run's total CO2e |
| ForestMultiSpecies.MultiSpeciesShape | forest/forestCalcs.js:212-243 | the yearly length is 0 or the duration; one share per species in input order; average × duration = total |
| ForestMultiSpecies.MultiSpeciesTotals | forest/forestCalcs.js:219-221 | the summary total and final carbon stock are sums over the species' runs |
| ForestMultiSpecies.MultiSpeciesYear | forest/forestCalcs.js:224-239 | each merged year's co2e, increment and running total are sums over species; all other fields are the first species' record |
| ForestMultiSpecies.SwapKeepsColumn | forest/forestCalcs.js:233-238 | the per-species column sum of any year is unchanged when two neighbouring species anywhere in the list change places |
| ForestMultiSpecies.SwapLastPairColumn | forest/forestCalcs.js:233-238 | the column sum is unchanged when the last two species change places |
| ForestMultiSpecies.SwapKeepsTotals | forest/forestCalcs.js:219-221 | the sums of the species' totals and final carbon stocks are unchanged when two neighbouring species change places |
| ForestMultiSpecies.SummedPartsIgnoreOrder | forest/forestCalcs.js:219-239 | exchanging two neighbouring species, anywhere in a list of any length, leaves the summary and the three summed columns of every year unchanged |
| ForestMultiSpecies.UnsummedPartsFollowFirstSpecies | forest/forestCalcs.js:226-232 | the merged growing stock is the first species' own, so it follows the list order |
| ForestEvents.FreshRegistry | forest/forestCalcs.js:17-25 | initialisation creates empty lists for exactly the error, results, reset and dataUpdated events |
| ForestEvents.EventSystem.constructor | forest/forestCalcs.js:10-14 | a new registry has no lists and is not initialised |
| ForestEvents.EventSystem.Init | forest/forestCalcs.js:17-25 | init sets the four empty lists and marks the registry initialised |
| ForestEvents.EventSystem.On | forest/forestCalcs.js:32-39 | registering initialises the registry first if needed, then appends the callback to the event's list (creating it for a new event) |
| ForestEvents.EventSystem.Trigger | forest/forestCalcs.js:46-52 | triggering initialises the registry if needed and invokes exactly the event's callbacks in registration order |
| ForestEvents.RegisterAppends | forest/forestCalcs.js:32-39 | registering adds the callback at the end of its event's list and leaves every other event's list unchanged |
| ForestEvents.FreshRegistryIsSilent | forest/forestCalcs.js:17-52 | a freshly initialised registry invokes nothing for any event |
| ForestEvents.TriggerOrder | forest/forestCalcs.js:32-52 | callbacks registered one after another are invoked in the order they were registered |
| ForestIO.RowError | forest/forestIO.js:158-164 | a row is accepted exactly when its name is truthy and its proportion is a number in (0, 1] |
| ForestIO.FirstRowError | forest/forestIO.js:158-164 | there is no row error from a position exactly when every row from it is accepted |
| ForestIO.ValidateSpeciesData | forest/forestIO.js:150-172 | the row loop with early exits and the summing loop decide exactly as the specification check |
| ForestIO.SpeciesCheckPasses | forest/forestIO.js:150-172 | a list passes exactly when it is non-empty, every row is accepted, and the proportions sum to within 0.01 of 1 |
| ForestIO.FirstBadRowReported | forest/forestIO.js:158-164 | when rows before k pass and row k fails, row k's error is the one reported |
| ForestIO.FirstRowErrorSkips | forest/forestIO.js:158-164 | accepted rows are skipped when looking for the first error |
| ForestIO.FalsyNamesAreMissing | forest/forestIO.js:159-160 | an absent, zero, boolean false or empty name is reported missing with the 1-based row; the text "false" is accepted as a name |
| ForestIO.MissingNameReportsRow | forest/forestIO.js:159-160 | a missing name is reported with the 1-based row number |
| ForestIO.ProportionSumExamples | forest/forestIO.js:167-170 | proportions 0.6 and 0.4 pass; 0.5 and 0.3 fail, reporting the sum 0.8 |
| ForestIO.MissingColumns | forest/forestIO.js:120-122 | the missing columns are exactly the required ones absent from the header |
| ForestIO.MapRows | forest/forestIO.js:128-138 | one species per data row, in order |
| ForestIO.ParseSpeciesCsv | forest/forestIO.js:103-144 | a parser error comes first, then missing columns, then the species validation; otherwise the mapped rows are returned |
| ForestIO.ParseAcceptsValidFile | forest/forestIO.js:103-144 | a file without parser errors, with both columns and valid rows, yields its mapped rows |
| ForestIO.SpeciesStore.constructor | forest/forestIO.js:7 | no species are loaded at first |
| ForestIO.SpeciesStore.GetLoadedSpeciesData | forest/forestIO.js:206-208 | returns the loaded list |
| ForestIO.SpeciesStore.HandleSpeciesData | forest/forestIO.js:178-216 | stores the list; multi-species mode holds exactly when the list is non-empty |
| ForestIO.SpeciesStore.IsMultiSpeciesMode | forest/forestIO.js:214-216 | multi-species mode is on exactly when a non-empty list is stored |
| ForestIO.SpeciesStore.OnCsvLoaded | forest/forestIO.js:81-89 | a parsed file replaces the store; a failed parse reports its error and leaves the store unchanged; a stored list is always a valid one or the old one |
| ForestIO.ExportRow | forest/forestIO.js:271-282 | an export row has one cell per header, ten in all |
| ForestIO.ExportForestResults | forest/forestIO.js:247-300 | export fails exactly when there are no results or no yearly records; otherwise there is one row per record under the ten headers |
| ForestIO.ExportRoundTrip | forest/forestIO.js:271-282 | every exported row reads back as its record's ten exported fields |
| ForestDOM.CarbonCredits | forest/forestDOM.js:181-188 | the buffer defaults to 20; credits + total × buffer/100 = total; revenue = credits × price |
| ForestDOM.DefaultBufferKeepsEightyPercent | forest/forestDOM.js:181-183 | with no buffer argument, 80 percent of the total becomes credits |
| ForestDOM.CreditsWithinTotal | forest/forestDOM.js:182 | a buffer in [0, 100] leaves credits between 0 and a non-negative total: all of it at 0 and none at 100 |
| ForestDOM.TableRow | forest/forestDOM.js:221-231 | a table row has seven cells |
| ForestDOM.ResultsTable | forest/forestDOM.js:215-233 | one table row per yearly record, in order |
| ForestDOM.TableRowSelectsExportColumns | forest/forestDOM.js:221-231 | the table row is the export row without the three biomass columns, in the same order |
| ForestEnhanced.CoercionKeepsNumbers | forest/forestEnhanced.js:166-171 | coercion passes parsed numbers through and turns unparsable input into 0 |
| ForestEnhanced.FinalGreenCover | forest/forestEnhanced.js:56-65 | the final green cover never exceeds 100 percent |
| ForestEnhanced.FinalGreenCoverIsPercentage | forest/forestEnhanced.js:56-65 | with positive area, non-negative density and mortality in [0, 100] the cover lies in [0, 100] |
| ForestEnhanced.FullCanopyGivesFullCover | forest/forestEnhanced.js:61-65 | once the crowns cover the whole area, the cover is 100 |
| ForestEnhanced.CoverWithoutMortality | forest/forestEnhanced.js:56-65 | without mortality and at most 400 trees per hectare, the cover is density / 4 percent (25 m² per crown) |
| ForestEnhanced.GreenCoverPanel.constructor | forest/forestEnhanced.js:13-14 | the panel starts at 10 percent initial cover and zero final cover |
| ForestEnhanced.GreenCoverPanel.CalculateInitialGreenCover | forest/forestEnhanced.js:38-44 | the initial cover shown is the stored 10 percent |
| ForestEnhanced.GreenCoverPanel.UpdateGreenCoverMetrics | forest/forestEnhanced.js:50-72 | with the panel present the final cover becomes the green-cover formula and the increase is final minus initial; otherwise nothing changes |
| ForestEnhanced.CarbonCreditsCalculation | forest/forestEnhanced.js:78-89 | no figures without the panel; otherwise the figures are the credit calculation for the entered (or defaulted: price 5, buffer 20) values, so credits + total × buffer/100 = total and revenue = credits × price; a defaulted buffer keeps 80 percent |
| ForestEnhanced.OnRiskBufferInput | forest/forestEnhanced.js:23-35 | the buffer field reads back as the parsed buffer or 20; credits are recomputed with it exactly when results exist |
| ForestEnhanced.BiodiversityEnhancement | forest/forestEnhanced.js:104-127 | species count is the loaded list's length (1 without a list); habitat = area × 10000; species supported = 5 × count |
| ForestEnhanced.CalculateBeneficiaries | forest/forestEnhanced.js:134-153 | direct and indirect are within half a person of 10 and 50 per hectare, and total is their sum |
| ForestEnhanced.BeneficiaryEstimatesAgree | forest/forestEnhanced.js:134-153 | for non-negative inputs the extended estimate equals the core estimate's counts |
| ForestEnhanced.BeneficiaryEstimatesDifferOnNegativeArea | forest/forestEnhanced.js:134-153 | for area −1 the extended estimate gives −60 beneficiaries where the guarded core estimate gives 0 |
| ForestMain.ForestEngine | forest/forestMain.js:58-67 | the multi-species engine runs when a non-empty species list is loaded, the single-species engine otherwise |
| ForestMain.EngineChoice | forest/forestMain.js:58-67 | a species breakdown appears exactly when a non-empty list is loaded, and then lists every species |
| ForestMain.ForestCalculator.constructor | js/globals.js:40 | the slot starts empty |
| ForestMain.ForestCalculator.CalculateForest | forest/forestMain.js:49-112 | without an event system nothing happens; otherwise the engine's result is stored and returned, and a later throw returns nothing but keeps the stored result |
| ForestMain.ForestCalculator.ResetForest | forest/forestMain.js:117-127 | reset empties the slot |
| ForestMain.ForestCalculator.GetLastResults | forest/forestMain.js:133-135 | returns the slot |
| WaterCalcs.HorizonTotalIsProduct | water/waterCalcs.js:20-24 | adding a yearly amount over n years equals multiplying it by n |
| WaterCalcs.AnnualWaterCaptured | water/waterCalcs.js:10-13 | any zero factor gives zero water; non-negative factors give non-negative water |
| WaterCalcs.CumulativeWater | water/waterCalcs.js:20-24 | cumulative water is the annual amount added up over the fixed 10-year horizon |
| WaterCalcs.AnnualEnergySaved | water/waterCalcs.js:31-34 | any zero factor gives zero energy; non-negative factors give non-negative energy |
| WaterCalcs.AnnualEmissionsReduction | water/waterCalcs.js:41-44 | t × 10^6 = kWh × 233; zero exactly for zero energy; non-negative energy gives 0 ≤ t ≤ energy |
| WaterCalcs.CumulativeEmissions | water/waterCalcs.js:51-55 | cumulative emissions are the annual amount added up over the 10-year horizon |
| WaterCalcs.EmissionsOverHorizon | water/waterCalcs.js:41-55 | from energy to ten-year emissions is × 0.00233, and zero energy gives zero |
| WaterCalcs.CumulativeIsTenYears | water/waterCalcs.js:20-55 | both cumulative figures are ten times their yearly figure |
| WaterCalcs.WaterOverHorizon | water/waterCalcs.js:10-24 | the cumulative water is the yearly capture added over ten years: 10 × rainfall × area × efficiency |
| WaterCalcs.PumpingOverHorizon | water/waterCalcs.js:31-55 | ten-year emissions avoided are water pumped × energy per unit × 0.00233 |
| WaterEnhanced.SeasonalWaterCapture | water/waterEnhanced.js:78-120 | the base results are kept and marked enhanced; one quarter per given quarter (defaults when the data or quarter list is missing), each with its name and annual × share for water, energy and emissions |
| WaterEnhanced.DefaultQuartersAddUp | water/waterEnhanced.js:84-112 | with the default quarters the quarterly water, energy and emissions add up exactly to the annual figures |
| WaterEnhanced.QualityIndexOr | water/waterEnhanced.js:131-141 | a known category gives its table index and an unknown one the fallback, always within 10..90 |
| WaterEnhanced.WaterQualityImprovement | water/waterEnhanced.js:129-144 | categories default to poor and good; unknown ones count as 50 (initial) and 70 (target); the improvement is target − initial, within ±80 |
| WaterEnhanced.QualityFigures | water/waterEnhanced.js:144-180 | cost and pollutant reduction = improvement/200; savings = cost × reduction; ecosystem value = 1000 + 10 × improvement per hectare; health = 5 × improvement |
| WaterEnhanced.ReductionShare | water/waterEnhanced.js:149-161 | 5 percent per ten points is improvement / 200 |
| WaterEnhanced.QualityImprovementExamples | water/waterEnhanced.js:129-165 | the default move is 40 points, 20 percent cheaper treatment and 200 per person; staying in a known category gains nothing |
| WaterEnhanced.CalculateFloodMitigation | water/waterEnhanced.js:187-221 | pct = 0.6 × capture efficiency; protected area = 5 × water area; damage prevented = stormwater savings = 1000 × area protected × pct; resilience = 100 × pct; capture in [0, 1] keeps pct within 0.6 |
| WaterEnhanced.FloodIgnoresRainfall | water/waterEnhanced.js:189-212 | rainfall and runoff do not affect any flood figure |
| WaterEnhanced.TypeModifierOf | water/waterEnhanced.js:232-250 | the type defaults to lake; a known type gives its table modifier and an unknown one 1.0; always within [0.8, 1.5] |
| WaterEnhanced.ConditionModifierOf | water/waterEnhanced.js:241-251 | the condition defaults to degraded (0.8); a known condition gives its table modifier and an unknown one 0.6; always within [0.1, 1.0] |
| WaterEnhanced.DurationFactor | water/waterEnhanced.js:255 | the duration factor is duration/20 up to 20 years and exactly 1 from 20 years on; never above 1, non-negative for non-negative durations |
| WaterEnhanced.BiodiversityIndex | water/waterEnhanced.js:256-259 | the index is 5 × area × type × condition × duration factor while that is at most 100, and 100 from there on; non-negative for non-negative factors |
| WaterEnhanced.Connectivity | water/waterEnhanced.js:273 | the connectivity score is area/10 × type modifier while that is at most 1, and 1 from there on; non-negative for non-negative area and modifier |
| WaterEnhanced.CalculateBiodiversityImpact | water/waterEnhanced.js:230-283 | with t and c the defaulted type and condition modifiers: species = round(5 × area × t × c), service value = 5000 × area × t × c, index = the capped index of area, t, c and the duration factor, connectivity = the capped score of area and t; index ≤ 100 and connectivity ≤ 1; the names echoed, defaulted to lake and degraded |
| WaterEnhanced.SpeciesFollowServiceValue | water/waterEnhanced.js:263-269 | species supported = round(service value / 1000): both scale the same modified area, by 5 species and by 5000 |
| WaterEnhanced.BiodiversityImpactNonNegative | water/waterEnhanced.js:230-283 | for non-negative area and duration, index, connectivity, species and service value are all non-negative |
| WaterEnhanced.DefaultAndUnknownNamesDiffer | water/waterEnhanced.js:250-251 | the default names support round(4 × area) species and unknown names round(3 × area), 40 against 30 on 10 ha (the unknown condition falls back to 0.6, not to degraded's 0.8) |
| WaterMain.IntOrDefault | water/waterMain.js:151 | a parsed non-zero integer is kept; zero or NaN gives the default |
| WaterMain.GetFormData | water/waterMain.js:142-159 | a form gives every field, each the parsed value or its default (5, 1200, 0.7, 0.85, 1.5, 20, 200000, 50); any other argument is returned as it is |
| WaterMain.ValidateData | water/waterMain.js:166-194 | each error is reported exactly when its check fails and every earlier check passes |
| WaterMain.Message | water/waterMain.js:168-190 | each failure's message begins with the name of the field it rejects |
| WaterMain.MessageIdentifiesCheck | water/waterMain.js:168-190 | different failures report different messages, so the message identifies the failed check |
| WaterMain.ValidIffInRange | water/waterMain.js:166-194 | data pass exactly when area and rainfall are positive, runoff and capture lie in (0, 1] and the duration is at least 1 |
| WaterMain.UncheckedFields | water/waterMain.js:166-194 | energy savings, project cost and water value never affect validation |
| WaterMain.FormDefaultsPass | water/waterMain.js:146-192 | an empty form passes validation on its defaults |
| WaterMain.FormFailureNeedsEnteredNumber | water/waterMain.js:146-192 | a form fails only on an entered negative value, or a runoff or capture above 1 |
| WaterMain.WaterCalculator.constructor | js/globals.js:41 | the slot starts empty |
| WaterMain.WaterCalculator.CalculateWaterImpact | water/waterMain.js:74-135 | rejected data and a failed capture leave the slot unchanged; a capture result is stored, and returned unless a later step throws |
| WaterMain.WaterCalculator.ResetWaterCalculator | water/waterMain.js:240-250 | reset empties the slot |
| WaterMain.WaterCalculator.GetLastResults | water/waterMain.js:256-258 | returns the slot |
| WaterMain.RejectionKeepsEarlierResult | water/waterMain.js:85-93 | a rejected calculation after a successful one leaves the earlier result in the slot |
| WaterList.RemoveAt | water/waterListHandlers.js:14-17 | removing position i shortens the list by one, keeps the entries before i and shifts the later ones down by one |
| WaterList.RemoveAtTakesOneCopy | water/waterListHandlers.js:14-17 | removal takes exactly one copy of the removed entry out of the multiset of entries |
| WaterList.RemoveAtKeepsOrder | water/waterListHandlers.js:14-17 | any two remaining entries keep their relative order |
| WaterList.WaterListHandlers.constructor | water/waterListHandlers.js:6-8 | a new list is empty |
| WaterList.WaterListHandlers.AddWaterEntry | water/waterListHandlers.js:10-12 | appends the entry at the end |
| WaterList.WaterListHandlers.RemoveWaterEntry | water/waterListHandlers.js:14-17 | an index in range removes exactly that entry; any other index changes nothing |
| WaterList.WaterListHandlers.GetWaterList | water/waterListHandlers.js:20-22 | returns the current list |
| WaterList.WaterListHandlers.ClearWaterList | water/waterListHandlers.js:24-26 | clearing leaves the list empty |
| WaterList.AddThenRemoveLast | water/waterListHandlers.js:10-17 | adding an entry and removing the last position restores the list |

## Left out

- The page itself is not modelled: DOM updates, charts, form wiring and the UI toggles. Only the arithmetic and the row selection of the two forest panels are kept.
- The forest form handlers in forest/forestListHandlers.js are not part of this model: they only read page inputs.
- The file reader, the CSV parser library and the PDF/CSV download helpers are not modelled. The parser's output (errors, header fields, rows) is an input of `ForestIO.ParseSpeciesCsv`.
- Number formatting (`toLocaleString`) and dates are not modelled. Export cells are the raw numbers.
- The water export module (water/waterIO.js) is not part of this model. Its field names do not match the rest of the water module.
- The server, the analytics logging and the global namespace setup are not modelled. The global setup's only relevance is the empty initial result slots, which are the class constructors.
- The logarithmic biodiversity index (forest/forestCalcs.js:283-291, forest/forestEnhanced.js:112) is not modelled, because Dafny has no logarithm. `ForestEnhanced.BiodiversityEnhancement` models the other fields.
- IEEE floating point is not modelled: rounding error, Infinity and NaN arithmetic. The identity running total == co2e holds exactly only over the reals.
- A NaN that reaches a formula is not modelled. A number that fails to parse is `None` only where the code immediately replaces it with a default.
- Prototype keys are not modelled. A category or type name such as `toString` is treated like any other unknown name. An event name such as `toString` is treated as a new event, although in the code `on` finds the inherited function and its `push` throws.
- String comparisons in the plain-object route of water validation are not modelled. The fields of a plain object are numbers or missing.
- The engine's unguarded divisions become preconditions: `EngineReady`, `ForestCostAnalysis`'s non-zero total and area, and `FinalGreenCover`'s non-zero area. Dividing by zero and what follows (Infinity or NaN in the output) is not modelled.
- `calculateEnhancedFeatures` (forest/forestEnhanced.js:161-193) is modelled only through its input coercion. Its call at forest/forestEnhanced.js:174 names functions the IO module does not export, so it always throws there.
- `ForestEnhanced.GreenCoverPanel.UpdateGreenCoverMetrics` takes the duration as a non-negative whole number of years. A fractional or negative duration, which `parseFloat(...) || 0` can produce, is not modelled, since the compounded survival uses a whole-number power.
- `ForestMultiSpecies.SpeciesInputs` requires that no species override is a non-empty string (through `SpeciesUsable`). Such a cell passes validation and the code keeps it. Non-numeric text turns into NaN in the arithmetic, and other numeric spellings (such as `0x10` or `Infinity`) are not modelled. Numbers, booleans (`true` counts as 1) and falsy cells are all admitted.
- `ForestMain.ForestCalculator.CalculateForest`: the cost analysis, the event calls and the enhanced-feature update after the store write are not computed. They are the flag `laterStepThrows`: the update calls a function that is not exported (forest/forestMain.js:93), so in practice the call always throws after storing.
- `WaterMain.WaterCalculator.CalculateWaterImpact` takes the capture result as a parameter (`None` when the capture throws). The capture function and the later water derivers are not defined by the water formulas module, so in practice this call ends in the throw branch.
- `WaterEnhanced.SeasonalWaterCapture` takes the base results as a parameter, for the same reason.
- The wrappers `showError`, `onResults`, `onReset` and `dataUpdated` of the callback registry (forest/forestCalcs.js:59-85) are not modelled. Each only calls `trigger` with a fixed event name, and `trigger` is `ForestEvents.EventSystem.Trigger`. Callbacks are opaque values and are not run, so the callback's own error handling is not modelled.
- `WaterList.WaterListHandlers.RemoveWaterEntry` takes a whole-number index. The code's range guard also lets a fractional index through, which `splice` truncates (1.5 removes entry 1); a non-integer index is not modelled.
- `WaterList.WaterListHandlers.GetWaterList` returns a copy of the list value. The JavaScript method returns the live array, and changes made through that alias are not modelled.
- The water module's DOM initialisation and the registration of the enhanced functions on the water formulas object (water/waterEnhanced.js:9-29) are not modelled.
