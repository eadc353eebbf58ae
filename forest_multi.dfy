/**
 * The multi-species engine: the single-species engine run once per species
 * on that species' share of the area, with the species' own growth and
 * conversion parameters where it supplies them, and the results merged.
 *
 * The merge keeps the first species' yearly records and adds every later
 * species' co2e, annual increment and running total into them, index by
 * index; the summary totals are summed, and one share per species is listed.
 */
module ForestMultiSpecies {
  import opened Js
  import opened ForestCalcs

  /** A species' optional parameter is a number, a boolean (`true` counts
      as 1 in the arithmetic) or a falsy value (absent, 0, false or the empty
      string) that falls back to the project's. A non-empty string, which
      the arithmetic would turn into NaN, is excluded. */
  predicate OverrideUsable(v: Value)
  {
    !v.Str? || !Truthy(v)
  }

  /** A species row the engine can run: its proportion is a number and no
      override is a non-empty string. */
  predicate SpeciesUsable(s: Species)
  {
    && s.proportion.Num?
    && OverrideUsable(s.growthRate)
    && OverrideUsable(s.woodDensity)
    && OverrideUsable(s.bef)
    && OverrideUsable(s.rsr)
    && OverrideUsable(s.carbonFraction)
  }

  predicate AllUsable(speciesData: seq<Species>)
  {
    forall k :: 0 <= k < |speciesData| ==> SpeciesUsable(speciesData[k])
  }

  /** `species.x || data.x`, as the number the engine then computes with. */
  function Override(v: Value, base: real): (r: real)
    requires OverrideUsable(v)
    ensures !Truthy(v) ==> r == base
    ensures v.Num? && Truthy(v) ==> r == v.n
    ensures v == Bool(true) ==> r == 1.0
  {
    if !Truthy(v) then base
    else if v.Bool? then 1.0
    else v.n
  }

  /** The project inputs one species runs on: its share of the area, its own
      parameters where it gives a truthy one, the project's otherwise. */
  function SpeciesInputs(inp: ProjectInputs, s: Species): (si: ProjectInputs)
    requires SpeciesUsable(s)
    ensures si.area == inp.area * s.proportion.n
    ensures si.projectDuration == inp.projectDuration
    ensures si.plantingDensity == inp.plantingDensity
    ensures si.mortalityRate == inp.mortalityRate
    ensures Truthy(s.growthRate) && s.growthRate.Num? ==> si.growthRate == s.growthRate.n
    ensures s.growthRate == Bool(true) ==> si.growthRate == 1.0
    ensures !Truthy(s.growthRate) ==> si.growthRate == inp.growthRate
    ensures Truthy(s.woodDensity) && s.woodDensity.Num? ==> si.woodDensity == s.woodDensity.n
    ensures s.woodDensity == Bool(true) ==> si.woodDensity == 1.0
    ensures !Truthy(s.woodDensity) ==> si.woodDensity == inp.woodDensity
    ensures Truthy(s.bef) && s.bef.Num? ==> si.bef == s.bef.n
    ensures s.bef == Bool(true) ==> si.bef == 1.0
    ensures !Truthy(s.bef) ==> si.bef == inp.bef
    ensures Truthy(s.rsr) && s.rsr.Num? ==> si.rsr == s.rsr.n
    ensures s.rsr == Bool(true) ==> si.rsr == 1.0
    ensures !Truthy(s.rsr) ==> si.rsr == inp.rsr
    ensures Truthy(s.carbonFraction) && s.carbonFraction.Num? ==> si.carbonFraction == s.carbonFraction.n
    ensures s.carbonFraction == Bool(true) ==> si.carbonFraction == 1.0
    ensures !Truthy(s.carbonFraction) ==> si.carbonFraction == inp.carbonFraction
    ensures EngineReady(inp) ==> EngineReady(si)
  {
    inp.(
      area := inp.area * s.proportion.n,
      growthRate := Override(s.growthRate, inp.growthRate),
      woodDensity := Override(s.woodDensity, inp.woodDensity),
      bef := Override(s.bef, inp.bef),
      rsr := Override(s.rsr, inp.rsr),
      carbonFraction := Override(s.carbonFraction, inp.carbonFraction))
  }

  /** The single-species result of one species. */
  function SpeciesRun(inp: ProjectInputs, s: Species): ResultSet
    requires EngineReady(inp) && SpeciesUsable(s)
  {
    Sequestration(SpeciesInputs(inp, s))
  }

  /** Adds a species' year into the merged year: only the three CO2e columns
      are summed, every other field stays as it was. */
  function MergeYear(acc: YearRecord, next: YearRecord): YearRecord
  {
    acc.(co2e := acc.co2e + next.co2e,
         annualIncrement := acc.annualIncrement + next.annualIncrement,
         cumulativeCO2e := acc.cumulativeCO2e + next.cumulativeCO2e)
  }

  function MergeYearly(acc: seq<YearRecord>, next: seq<YearRecord>): (m: seq<YearRecord>)
    requires |next| == |acc|
    ensures |m| == |acc|
  {
    seq(|acc|, i requires 0 <= i < |acc| => MergeYear(acc[i], next[i]))
  }

  /** The state of the merge after some species: yearly records, the two
      summed summary totals, and the per-species shares. */
  datatype Accum = Accum(yearly: seq<YearRecord>, totalCO2e: real, finalCarbonStock: real,
                         species: seq<SpeciesShare>)

  /** The merge as a left fold over the species list. */
  function Accumulate(inp: ProjectInputs, speciesData: seq<Species>): (a: Accum)
    requires EngineReady(inp) && AllUsable(speciesData)
    ensures |a.yearly| == if |speciesData| == 0 then 0 else inp.projectDuration
    ensures |a.species| == |speciesData|
  {
    if |speciesData| == 0 then Accum([], 0.0, 0.0, [])
    else
      var prev := Accumulate(inp, speciesData[..|speciesData| - 1]);
      var s := speciesData[|speciesData| - 1];
      var r := SpeciesRun(inp, s);
      Accum(
        if |prev.yearly| == 0 then r.yearly else MergeYearly(prev.yearly, r.yearly),
        prev.totalCO2e + r.summary.totalCO2e,
        prev.finalCarbonStock + r.summary.finalCarbonStock,
        prev.species + [SpeciesShare(s.name, s.proportion.n, r.summary.totalCO2e)])
  }

  /** The multi-species result, as a value. */
  function MultiSpecies(inp: ProjectInputs, speciesData: seq<Species>): (r: ResultSet)
    requires EngineReady(inp) && AllUsable(speciesData)
    ensures r.species.Some? && |r.species.value| == |speciesData|
  {
    var a := Accumulate(inp, speciesData);
    ResultSet(a.yearly,
              Summary(a.totalCO2e, a.totalCO2e / inp.projectDuration as real, a.finalCarbonStock),
              Some(a.species))
  }

  /** The merge loop: adds one species' yearly co2e, increment and running
      total into the merged records, index by index. */
  method MergeInto(yearly: seq<YearRecord>, next: seq<YearRecord>) returns (merged: seq<YearRecord>)
    requires |next| == |yearly|
    ensures merged == MergeYearly(yearly, next)
  {
    merged := yearly;
    var i := 0;
    while i < |merged|
      invariant 0 <= i <= |merged| == |yearly|
      invariant forall j :: 0 <= j < i ==> merged[j] == MergeYear(yearly[j], next[j])
      invariant forall j :: i <= j < |merged| ==> merged[j] == yearly[j]
    {
      merged := merged[i := merged[i].(
        co2e := merged[i].co2e + next[i].co2e,
        annualIncrement := merged[i].annualIncrement + next[i].annualIncrement,
        cumulativeCO2e := merged[i].cumulativeCO2e + next[i].cumulativeCO2e)];
      i := i + 1;
    }
  }

  /** The multi-species engine: one engine run per species, merged into the
      results in place. */
  method CalculateSequestrationMultiSpecies(inp: ProjectInputs, speciesData: seq<Species>)
    returns (r: ResultSet)
    requires EngineReady(inp) && AllUsable(speciesData)
    ensures r == MultiSpecies(inp, speciesData)
  {
    var yearly: seq<YearRecord> := [];
    var totalCO2e := 0.0;
    var finalCarbonStock := 0.0;
    var species: seq<SpeciesShare> := [];
    for k := 0 to |speciesData|
      invariant Accum(yearly, totalCO2e, finalCarbonStock, species) == Accumulate(inp, speciesData[..k])
    {
      var s := speciesData[k];
      assert speciesData[..k + 1][..k] == speciesData[..k];
      var speciesResults := CalculateSequestration(SpeciesInputs(inp, s));
      species := species + [SpeciesShare(s.name, s.proportion.n, speciesResults.summary.totalCO2e)];
      totalCO2e := totalCO2e + speciesResults.summary.totalCO2e;
      finalCarbonStock := finalCarbonStock + speciesResults.summary.finalCarbonStock;
      if |yearly| == 0 {
        yearly := speciesResults.yearly;
      } else {
        yearly := MergeInto(yearly, speciesResults.yearly);
      }
    }
    assert speciesData[..|speciesData|] == speciesData;
    r := ResultSet(yearly, Summary(totalCO2e, totalCO2e / inp.projectDuration as real, finalCarbonStock),
                   Some(species));
  }

  // ---------------------------------------------------------------------
  // Properties of the merge

  /** The three columns the merge sums. */
  datatype Column = Co2eColumn | IncrementColumn | CumulativeColumn

  function ColumnOf(y: YearRecord, c: Column): real
  {
    match c
    case Co2eColumn => y.co2e
    case IncrementColumn => y.annualIncrement
    case CumulativeColumn => y.cumulativeCO2e
  }

  /** A reference sum: column `c` of year index `i` over the species'
      individual runs. */
  function SumColumn(inp: ProjectInputs, speciesData: seq<Species>, i: nat, c: Column): real
    requires EngineReady(inp) && AllUsable(speciesData) && i < inp.projectDuration
  {
    if |speciesData| == 0 then 0.0
    else
      SumColumn(inp, speciesData[..|speciesData| - 1], i, c)
      + ColumnOf(SpeciesRun(inp, speciesData[|speciesData| - 1]).yearly[i], c)
  }

  /** A reference sum of the species' total CO2e. */
  function SumTotals(inp: ProjectInputs, speciesData: seq<Species>): real
    requires EngineReady(inp) && AllUsable(speciesData)
  {
    if |speciesData| == 0 then 0.0
    else SumTotals(inp, speciesData[..|speciesData| - 1])
         + SpeciesRun(inp, speciesData[|speciesData| - 1]).summary.totalCO2e
  }

  /** A reference sum of the species' final carbon stocks. */
  function SumCarbonStocks(inp: ProjectInputs, speciesData: seq<Species>): real
    requires EngineReady(inp) && AllUsable(speciesData)
  {
    if |speciesData| == 0 then 0.0
    else SumCarbonStocks(inp, speciesData[..|speciesData| - 1])
         + SpeciesRun(inp, speciesData[|speciesData| - 1]).summary.finalCarbonStock
  }

  /** A record with the three summed columns cleared: what the merge leaves
      untouched. */
  function Unsummed(y: YearRecord): YearRecord
  {
    y.(co2e := 0.0, annualIncrement := 0.0, cumulativeCO2e := 0.0)
  }

  lemma {:induction false} AccumulatedColumn(inp: ProjectInputs, speciesData: seq<Species>, i: nat, c: Column)
    requires EngineReady(inp) && AllUsable(speciesData) && i < inp.projectDuration
    requires |speciesData| > 0
    ensures ColumnOf(Accumulate(inp, speciesData).yearly[i], c) == SumColumn(inp, speciesData, i, c)
  {
    var prefix := speciesData[..|speciesData| - 1];
    var r := SpeciesRun(inp, speciesData[|speciesData| - 1]);
    if |prefix| > 0 {
      AccumulatedColumn(inp, prefix, i, c);
      var prev := Accumulate(inp, prefix).yearly;
      assert Accumulate(inp, speciesData).yearly[i] == MergeYear(prev[i], r.yearly[i]);
    }
  }

  lemma {:induction false} AccumulatedTotals(inp: ProjectInputs, speciesData: seq<Species>)
    requires EngineReady(inp) && AllUsable(speciesData)
    ensures Accumulate(inp, speciesData).totalCO2e == SumTotals(inp, speciesData)
    ensures Accumulate(inp, speciesData).finalCarbonStock == SumCarbonStocks(inp, speciesData)
  {
    if |speciesData| > 0 {
      AccumulatedTotals(inp, speciesData[..|speciesData| - 1]);
    }
  }

  lemma {:induction false} AccumulatedUnsummed(inp: ProjectInputs, speciesData: seq<Species>, i: nat)
    requires EngineReady(inp) && AllUsable(speciesData) && i < inp.projectDuration
    requires |speciesData| > 0
    ensures Unsummed(Accumulate(inp, speciesData).yearly[i]) == Unsummed(SpeciesRun(inp, speciesData[0]).yearly[i])
  {
    var prefix := speciesData[..|speciesData| - 1];
    if |prefix| > 0 {
      AccumulatedUnsummed(inp, prefix, i);
      assert prefix[0] == speciesData[0];
    }
  }

  lemma {:induction false} AccumulatedShares(inp: ProjectInputs, speciesData: seq<Species>, k: nat)
    requires EngineReady(inp) && AllUsable(speciesData) && k < |speciesData|
    ensures Accumulate(inp, speciesData).species[k]
      == SpeciesShare(speciesData[k].name, speciesData[k].proportion.n,
                      SpeciesRun(inp, speciesData[k]).summary.totalCO2e)
  {
    var prefix := speciesData[..|speciesData| - 1];
    if k < |prefix| {
      AccumulatedShares(inp, prefix, k);
      assert prefix[k] == speciesData[k];
    }
  }

  /** Shape: as many years as the project has (none for an empty species
      list), one share per species in input order, and the average is the
      total over the duration. */
  lemma MultiSpeciesShape(inp: ProjectInputs, speciesData: seq<Species>)
    requires EngineReady(inp) && AllUsable(speciesData)
    ensures var r := MultiSpecies(inp, speciesData);
      && |r.yearly| == (if |speciesData| == 0 then 0 else inp.projectDuration)
      && r.species.Some? && |r.species.value| == |speciesData|
      && (forall k :: 0 <= k < |speciesData| ==>
            r.species.value[k] == SpeciesShare(speciesData[k].name, speciesData[k].proportion.n,
                                               SpeciesRun(inp, speciesData[k]).summary.totalCO2e))
      && r.summary.avgAnnualCO2e * (inp.projectDuration as real) == r.summary.totalCO2e
  {
    forall k | 0 <= k < |speciesData|
      ensures Accumulate(inp, speciesData).species[k]
        == SpeciesShare(speciesData[k].name, speciesData[k].proportion.n,
                        SpeciesRun(inp, speciesData[k]).summary.totalCO2e)
    {
      AccumulatedShares(inp, speciesData, k);
    }
  }

  /** The summary totals are sums over the species' own runs. */
  lemma MultiSpeciesTotals(inp: ProjectInputs, speciesData: seq<Species>)
    requires EngineReady(inp) && AllUsable(speciesData)
    ensures MultiSpecies(inp, speciesData).summary.totalCO2e == SumTotals(inp, speciesData)
    ensures MultiSpecies(inp, speciesData).summary.finalCarbonStock == SumCarbonStocks(inp, speciesData)
  {
    AccumulatedTotals(inp, speciesData);
  }

  /** Each merged year's co2e, increment and running total is the sum of the
      species' values for that year; every other field is the first
      species' own value. */
  lemma MultiSpeciesYear(inp: ProjectInputs, speciesData: seq<Species>, i: nat)
    requires EngineReady(inp) && AllUsable(speciesData) && |speciesData| > 0
    requires i < inp.projectDuration
    ensures var y := MultiSpecies(inp, speciesData).yearly[i];
      && y.co2e == SumColumn(inp, speciesData, i, Co2eColumn)
      && y.annualIncrement == SumColumn(inp, speciesData, i, IncrementColumn)
      && y.cumulativeCO2e == SumColumn(inp, speciesData, i, CumulativeColumn)
      && Unsummed(y) == Unsummed(SpeciesRun(inp, speciesData[0]).yearly[i])
  {
    AccumulatedColumn(inp, speciesData, i, Co2eColumn);
    AccumulatedColumn(inp, speciesData, i, IncrementColumn);
    AccumulatedColumn(inp, speciesData, i, CumulativeColumn);
    AccumulatedUnsummed(inp, speciesData, i);
  }

  /** Exchanging two neighbouring species keeps every species usable. */
  lemma SwapKeepsUsable(p: seq<Species>, x: Species, y: Species, q: seq<Species>)
    requires AllUsable(p + [x, y] + q)
    ensures AllUsable(p + [y, x] + q)
  {
    var s := p + [x, y] + q;
    var t := p + [y, x] + q;
    forall k | 0 <= k < |t|
      ensures SpeciesUsable(t[k])
    {
      if k == |p| {
        assert t[k] == s[k + 1];
      } else if k == |p| + 1 {
        assert t[k] == s[k - 1];
      } else {
        assert t[k] == s[k];
      }
    }
  }

  /** The reference column sum does not change when two neighbouring
      species change places, wherever they stand in the list. */
  lemma {:induction false} SwapKeepsColumn(inp: ProjectInputs, p: seq<Species>, x: Species, y: Species,
                                           q: seq<Species>, i: nat, c: Column)
    requires EngineReady(inp) && AllUsable(p + [x, y] + q) && i < inp.projectDuration
    ensures AllUsable(p + [y, x] + q)
    ensures SumColumn(inp, p + [x, y] + q, i, c) == SumColumn(inp, p + [y, x] + q, i, c)
  {
    SwapKeepsUsable(p, x, y, q);
    var s := p + [x, y] + q;
    var t := p + [y, x] + q;
    if |q| == 0 {
      assert s == p + [x, y] && t == p + [y, x];
      SwapLastPairColumn(inp, p, x, y, i, c);
    } else {
      var q' := q[..|q| - 1];
      var s' := p + [x, y] + q';
      var t' := p + [y, x] + q';
      assert s[..|s| - 1] == s';
      assert t[..|t| - 1] == t';
      var last := ColumnOf(SpeciesRun(inp, s[|s| - 1]).yearly[i], c);
      assert s[|s| - 1] == t[|t| - 1];
      assert SumColumn(inp, s, i, c) == SumColumn(inp, s', i, c) + last;
      assert SumColumn(inp, t, i, c) == SumColumn(inp, t', i, c) + last;
      SwapKeepsColumn(inp, p, x, y, q', i, c);
    }
  }

  /** The same, for the last two species of the list. */
  lemma SwapLastPairColumn(inp: ProjectInputs, p: seq<Species>, x: Species, y: Species, i: nat, c: Column)
    requires EngineReady(inp) && AllUsable(p + [x, y]) && AllUsable(p + [y, x]) && i < inp.projectDuration
    ensures SumColumn(inp, p + [x, y], i, c) == SumColumn(inp, p + [y, x], i, c)
  {
    var s := p + [x, y];
    var t := p + [y, x];
    assert s[..|s| - 1] == p + [x] && (p + [x])[..|p|] == p;
    assert t[..|t| - 1] == p + [y] && (p + [y])[..|p|] == p;
    assert s[|p|] == x && s[|p| + 1] == y;
    assert forall k :: 0 <= k < |p| ==> s[k] == p[k];
    var cx := ColumnOf(SpeciesRun(inp, x).yearly[i], c);
    var cy := ColumnOf(SpeciesRun(inp, y).yearly[i], c);
    var base := SumColumn(inp, p, i, c);
    assert SumColumn(inp, p + [x], i, c) == base + cx;
    assert SumColumn(inp, p + [y], i, c) == base + cy;
    assert SumColumn(inp, s, i, c) == base + cx + cy;
    assert SumColumn(inp, t, i, c) == base + cy + cx;
  }

  /** Likewise for the two summary sums. */
  lemma {:induction false} SwapKeepsTotals(inp: ProjectInputs, p: seq<Species>, x: Species, y: Species,
                                           q: seq<Species>)
    requires EngineReady(inp) && AllUsable(p + [x, y] + q)
    ensures AllUsable(p + [y, x] + q)
    ensures SumTotals(inp, p + [x, y] + q) == SumTotals(inp, p + [y, x] + q)
    ensures SumCarbonStocks(inp, p + [x, y] + q) == SumCarbonStocks(inp, p + [y, x] + q)
  {
    SwapKeepsUsable(p, x, y, q);
    var s := p + [x, y] + q;
    var t := p + [y, x] + q;
    if |q| == 0 {
      assert s == (p + [x]) + [y] && t == (p + [y]) + [x];
      assert s[..|s| - 1] == p + [x] && (p + [x])[..|p|] == p;
      assert t[..|t| - 1] == p + [y] && (p + [y])[..|p|] == p;
      assert s[|p|] == x && s[|p| + 1] == y;
      assert forall k :: 0 <= k < |p| ==> s[k] == p[k];
      var rx := SpeciesRun(inp, x).summary;
      var ry := SpeciesRun(inp, y).summary;
      assert SumTotals(inp, s) == SumTotals(inp, p) + rx.totalCO2e + ry.totalCO2e;
      assert SumTotals(inp, t) == SumTotals(inp, p) + ry.totalCO2e + rx.totalCO2e;
      assert SumCarbonStocks(inp, s) == SumCarbonStocks(inp, p) + rx.finalCarbonStock + ry.finalCarbonStock;
      assert SumCarbonStocks(inp, t) == SumCarbonStocks(inp, p) + ry.finalCarbonStock + rx.finalCarbonStock;
    } else {
      var q' := q[..|q| - 1];
      assert s[..|s| - 1] == p + [x, y] + q';
      assert t[..|t| - 1] == p + [y, x] + q';
      assert s[|s| - 1] == t[|t| - 1];
      SwapKeepsTotals(inp, p, x, y, q');
    }
  }

  /** Exchanging two neighbouring species, anywhere in a list of any
      length, changes none of the summed quantities: the summary and the
      three summed columns of every year. */
  lemma SummedPartsIgnoreOrder(inp: ProjectInputs, p: seq<Species>, x: Species, y: Species,
                               q: seq<Species>, i: nat)
    requires EngineReady(inp) && AllUsable(p + [x, y] + q) && i < inp.projectDuration
    ensures AllUsable(p + [y, x] + q)
    ensures var xy := MultiSpecies(inp, p + [x, y] + q);
      var yx := MultiSpecies(inp, p + [y, x] + q);
      && xy.summary == yx.summary
      && xy.yearly[i].co2e == yx.yearly[i].co2e
      && xy.yearly[i].annualIncrement == yx.yearly[i].annualIncrement
      && xy.yearly[i].cumulativeCO2e == yx.yearly[i].cumulativeCO2e
  {
    var s := p + [x, y] + q;
    var t := p + [y, x] + q;
    SwapKeepsColumn(inp, p, x, y, q, i, Co2eColumn);
    SwapKeepsColumn(inp, p, x, y, q, i, IncrementColumn);
    SwapKeepsColumn(inp, p, x, y, q, i, CumulativeColumn);
    SwapKeepsTotals(inp, p, x, y, q);
    MultiSpeciesTotals(inp, s);
    MultiSpeciesTotals(inp, t);
    MultiSpeciesYear(inp, s, i);
    MultiSpeciesYear(inp, t, i);
  }

  /** Every other yearly field follows the list order: the merged records
      carry the first species' values, so two species whose growing stocks
      differ give different merged growing stocks in the two orders. */
  lemma UnsummedPartsFollowFirstSpecies(inp: ProjectInputs, a: Species, b: Species, i: nat)
    requires EngineReady(inp) && SpeciesUsable(a) && SpeciesUsable(b) && i < inp.projectDuration
    ensures MultiSpecies(inp, [a, b]).yearly[i].growingStock == SpeciesRun(inp, a).yearly[i].growingStock
    ensures MultiSpecies(inp, [b, a]).yearly[i].growingStock == SpeciesRun(inp, b).yearly[i].growingStock
  {
    MultiSpeciesYear(inp, [a, b], i);
    MultiSpeciesYear(inp, [b, a], i);
  }
}
