/**
 * The arithmetic behind two forest result panels: the carbon-credit figures
 * (credits left after a risk buffer and the revenue they bring) and the
 * cells of the yearly results table. Writing them to the page is not
 * modelled.
 */
module ForestDOM {
  import opened Js
  import opened ForestCalcs
  import ForestIO

  /** The risk buffer, in percent, used when the caller gives none. */
  const DefaultRiskBuffer: real := 20.0

  datatype CarbonCreditFigures = CarbonCreditFigures(creditsAfterBuffer: real, revenue: real, riskBuffer: real)

  /** Credits are the total CO2e less the risk-buffer share; revenue is the
      credits at the carbon price. An omitted buffer means 20 percent. */
  function CarbonCredits(totalCO2e: real, carbonPrice: real, riskBuffer: Option<real>): (c: CarbonCreditFigures)
    ensures c.riskBuffer == if riskBuffer.Some? then riskBuffer.value else DefaultRiskBuffer
    ensures c.creditsAfterBuffer + totalCO2e * c.riskBuffer / 100.0 == totalCO2e
    ensures c.revenue == c.creditsAfterBuffer * carbonPrice
  {
    var buffer := if riskBuffer.Some? then riskBuffer.value else DefaultRiskBuffer;
    var creditsAfterBuffer := totalCO2e * (1.0 - buffer / 100.0);
    CarbonCreditFigures(creditsAfterBuffer, creditsAfterBuffer * carbonPrice, buffer)
  }

  /** Without a buffer argument (as in the call after a calculation) 80
      percent of the total becomes credits. */
  lemma DefaultBufferKeepsEightyPercent(totalCO2e: real, carbonPrice: real)
    ensures CarbonCredits(totalCO2e, carbonPrice, None).creditsAfterBuffer == 0.8 * totalCO2e
    ensures CarbonCredits(totalCO2e, carbonPrice, None).revenue == 0.8 * totalCO2e * carbonPrice
  {
  }

  /** A buffer between 0 and 100 percent leaves between none and all of a
      non-negative total: all of it at 0 percent, none at 100 percent. */
  lemma CreditsWithinTotal(totalCO2e: real, carbonPrice: real, riskBuffer: real)
    requires totalCO2e >= 0.0 && 0.0 <= riskBuffer <= 100.0
    ensures 0.0 <= CarbonCredits(totalCO2e, carbonPrice, Some(riskBuffer)).creditsAfterBuffer <= totalCO2e
    ensures riskBuffer == 0.0 ==> CarbonCredits(totalCO2e, carbonPrice, Some(riskBuffer)).creditsAfterBuffer == totalCO2e
    ensures riskBuffer == 100.0 ==> CarbonCredits(totalCO2e, carbonPrice, Some(riskBuffer)).creditsAfterBuffer == 0.0
  {
    ScaleDown(1.0 - riskBuffer / 100.0, totalCO2e);
  }

  /** The cells of one table row: year, surviving trees, growing stock,
      carbon content, co2e, annual increment, running total (number
      formatting is not modelled). */
  function TableRow(y: YearRecord): (cells: seq<real>)
    ensures |cells| == 7
  {
    [y.year as real, y.survivingTrees as real, y.growingStock, y.carbonContent, y.co2e,
     y.annualIncrement, y.cumulativeCO2e]
  }

  /** One row per yearly record, in order. */
  function ResultsTable(yearly: seq<YearRecord>): (rows: seq<seq<real>>)
    ensures |rows| == |yearly|
    ensures forall k :: 0 <= k < |yearly| ==> rows[k] == TableRow(yearly[k])
  {
    seq(|yearly|, k requires 0 <= k < |yearly| => TableRow(yearly[k]))
  }

  /** The table shows a selection of the exported columns: the three
      biomass columns are left out, everything else keeps its order. */
  lemma TableRowSelectsExportColumns(y: YearRecord)
    ensures var e := ForestIO.ExportRow(y);
      TableRow(y) == [e[0], e[1], e[2], e[6], e[7], e[8], e[9]]
  {
  }
}
