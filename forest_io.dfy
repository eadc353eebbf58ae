/**
 * Loading a species file and exporting results.
 *
 * A species file is parsed by a CSV library (outside this model) into its
 * header fields, its rows (field name to value) and any parser errors. The
 * model checks the header, maps each row to a species record, validates the
 * list and stores it. Exporting turns the yearly records into ten-column
 * rows under ten headers.
 */
module ForestIO {
  import opened Js
  import opened ForestCalcs

  /** Why a species list, or a species file, is refused. */
  datatype SpeciesError =
    | NoSpeciesData
    | MissingName(row: int)
    | InvalidProportion(name: Value)
    | BadProportionSum(sum: real)
    | ParserError(message: string)
    | MissingRequiredColumns(columns: seq<string>)

  /** A proportion must be a number in (0, 1]. */
  predicate ProportionValid(p: Value)
  {
    p.Num? && 0.0 < p.n <= 1.0
  }

  /** The error for row `i` (0-based), if the row is bad: a missing (falsy)
      name is reported with the 1-based row number, then a bad proportion
      with the species' name. */
  function RowError(s: Species, i: nat): (e: Option<SpeciesError>)
    ensures e.None? <==> Truthy(s.name) && ProportionValid(s.proportion)
  {
    if !Truthy(s.name) then Some(MissingName(i + 1))
    else if !ProportionValid(s.proportion) then Some(InvalidProportion(s.name))
    else None
  }

  /** The falsy names, a boolean `false` among them, are all reported as
      missing; the text "false" is a name like any other. */
  lemma FalsyNamesAreMissing(s: Species, i: nat)
    ensures RowError(s.(name := Absent), i) == Some(MissingName(i + 1))
    ensures RowError(s.(name := Num(0.0)), i) == Some(MissingName(i + 1))
    ensures RowError(s.(name := Bool(false)), i) == Some(MissingName(i + 1))
    ensures RowError(s.(name := Str("")), i) == Some(MissingName(i + 1))
    ensures ProportionValid(s.proportion) ==> RowError(s.(name := Str("false")), i).None?
  {
  }

  /** The first row error from index `from` on. */
  function FirstRowError(speciesData: seq<Species>, from: nat): (e: Option<SpeciesError>)
    requires from <= |speciesData|
    ensures e.None? <==> forall k :: from <= k < |speciesData| ==> RowError(speciesData[k], k).None?
    decreases |speciesData| - from
  {
    if from == |speciesData| then None
    else if RowError(speciesData[from], from).Some? then RowError(speciesData[from], from)
    else FirstRowError(speciesData, from + 1)
  }

  predicate AllProportionsNumbers(speciesData: seq<Species>)
  {
    forall k :: 0 <= k < |speciesData| ==> speciesData[k].proportion.Num?
  }

  /** The sum of the proportions, added left to right from 0. */
  function SumProportions(speciesData: seq<Species>): real
    requires AllProportionsNumbers(speciesData)
  {
    if |speciesData| == 0 then 0.0
    else SumProportions(speciesData[..|speciesData| - 1]) + speciesData[|speciesData| - 1].proportion.n
  }

  /** The verdict on a species list: none or empty, then the first bad row,
      then a proportion sum more than 0.01 away from 1. */
  function SpeciesCheck(data: Option<seq<Species>>): Outcome<SpeciesError>
  {
    if data.None? || |data.value| == 0 then Fail(NoSpeciesData)
    else
      var rowError := FirstRowError(data.value, 0);
      if rowError.Some? then Fail(rowError.value)
      else
        var sum := SumProportions(data.value);
        if Abs(sum - 1.0) > 0.01 then Fail(BadProportionSum(sum)) else Pass
  }

  /** The validator: row checks in order with an early exit, then the sum. */
  method ValidateSpeciesData(data: Option<seq<Species>>) returns (outcome: Outcome<SpeciesError>)
    ensures outcome == SpeciesCheck(data)
  {
    if data.None? || |data.value| == 0 {
      return Fail(NoSpeciesData);
    }
    var speciesData := data.value;
    for i := 0 to |speciesData|
      invariant FirstRowError(speciesData, 0) == FirstRowError(speciesData, i)
    {
      var species := speciesData[i];
      if !Truthy(species.name) {
        return Fail(MissingName(i + 1));
      }
      if !(species.proportion.Num? && 0.0 < species.proportion.n <= 1.0) {
        return Fail(InvalidProportion(species.name));
      }
    }
    var proportionSum := 0.0;
    for j := 0 to |speciesData|
      invariant AllProportionsNumbers(speciesData[..j])
      invariant proportionSum == SumProportions(speciesData[..j])
    {
      assert speciesData[..j + 1][..j] == speciesData[..j];
      proportionSum := proportionSum + speciesData[j].proportion.n;
    }
    assert speciesData[..|speciesData|] == speciesData;
    if Abs(proportionSum - 1.0) > 0.01 {
      return Fail(BadProportionSum(proportionSum));
    }
    return Pass;
  }

  /** A non-empty list passes exactly when every row has a name and a
      proportion in (0, 1] and the proportions add up to 1 within 0.01. */
  lemma SpeciesCheckPasses(speciesData: seq<Species>)
    ensures SpeciesCheck(Some(speciesData)) == Pass <==>
      && |speciesData| > 0
      && (forall k :: 0 <= k < |speciesData| ==>
            Truthy(speciesData[k].name) && ProportionValid(speciesData[k].proportion))
      && (assert AllProportionsNumbers(speciesData); Abs(SumProportions(speciesData) - 1.0) <= 0.01)
  {
    if |speciesData| > 0 && FirstRowError(speciesData, 0).Some? {
      var k :| 0 <= k < |speciesData| && RowError(speciesData[k], k).Some?;
    }
  }

  /** The first bad row decides the error, whatever follows it. */
  lemma FirstBadRowReported(speciesData: seq<Species>, k: nat)
    requires k < |speciesData|
    requires forall j :: 0 <= j < k ==> RowError(speciesData[j], j).None?
    requires RowError(speciesData[k], k).Some?
    ensures SpeciesCheck(Some(speciesData)) == Fail(RowError(speciesData[k], k).value)
  {
    FirstRowErrorSkips(speciesData, 0, k);
  }

  lemma {:induction false} FirstRowErrorSkips(speciesData: seq<Species>, from: nat, k: nat)
    requires from <= k < |speciesData|
    requires forall j :: from <= j < k ==> RowError(speciesData[j], j).None?
    ensures FirstRowError(speciesData, from) == FirstRowError(speciesData, k)
    decreases k - from
  {
    if from < k {
      FirstRowErrorSkips(speciesData, from + 1, k);
    }
  }

  /** A row without a name is rejected with its 1-based position. */
  lemma MissingNameReportsRow(speciesData: seq<Species>, k: nat)
    requires k < |speciesData|
    requires forall j :: 0 <= j < k ==> RowError(speciesData[j], j).None?
    requires !Truthy(speciesData[k].name)
    ensures SpeciesCheck(Some(speciesData)) == Fail(MissingName(k + 1))
  {
    FirstBadRowReported(speciesData, k);
  }

  /** 0.6 and 0.4 add up to 1 and pass; 0.5 and 0.3 add up to 0.8 and fail. */
  lemma ProportionSumExamples(a: Value, b: Value)
    requires Truthy(a) && Truthy(b)
    ensures SpeciesCheck(Some([Species(a, Num(0.6), Absent, Absent, Absent, Absent, Absent),
                               Species(b, Num(0.4), Absent, Absent, Absent, Absent, Absent)])) == Pass
    ensures SpeciesCheck(Some([Species(a, Num(0.5), Absent, Absent, Absent, Absent, Absent),
                               Species(b, Num(0.3), Absent, Absent, Absent, Absent, Absent)]))
         == Fail(BadProportionSum(0.8))
  {
    var pass := [Species(a, Num(0.6), Absent, Absent, Absent, Absent, Absent),
                 Species(b, Num(0.4), Absent, Absent, Absent, Absent, Absent)];
    var fail := [Species(a, Num(0.5), Absent, Absent, Absent, Absent, Absent),
                 Species(b, Num(0.3), Absent, Absent, Absent, Absent, Absent)];
    assert pass[..1] == [pass[0]] && fail[..1] == [fail[0]];
    assert [pass[0]][..0] == [] && [fail[0]][..0] == [];
    assert SumProportions([pass[0]]) == 0.6;
    assert SumProportions(pass) == 1.0;
    assert SumProportions([fail[0]]) == 0.5;
    assert SumProportions(fail) == 0.8;
  }

  // ---------------------------------------------------------------------
  // Species files

  /** What the CSV library hands back: its errors, the header fields and
      one map per data row from field name to cell value. */
  datatype ParseOutput = ParseOutput(errors: seq<string>, fields: seq<string>, data: seq<map<string, Value>>)

  const RequiredColumns: seq<string> := ["name", "proportion"]

  /** The required columns absent from the header, in the required order. */
  function MissingColumns(fields: seq<string>): (missing: seq<string>)
    ensures forall c :: c in missing <==> c in RequiredColumns && c !in fields
    ensures |missing| <= |RequiredColumns|
  {
    (if "name" in fields then [] else ["name"])
    + (if "proportion" in fields then [] else ["proportion"])
  }

  /** A cell of a row: absent when the row has no such field. */
  function Cell(row: map<string, Value>, field: string): Value
  {
    if field in row then row[field] else Absent
  }

  /** A parsed row becomes a species record with exactly the seven fields. */
  function MapRow(row: map<string, Value>): Species
  {
    Species(Cell(row, "name"), Cell(row, "proportion"), Cell(row, "growthRate"),
            Cell(row, "woodDensity"), Cell(row, "bef"), Cell(row, "rsr"), Cell(row, "carbonFraction"))
  }

  function MapRows(data: seq<map<string, Value>>): (rows: seq<Species>)
    ensures |rows| == |data|
    ensures forall k :: 0 <= k < |data| ==> rows[k] == MapRow(data[k])
  {
    seq(|data|, k requires 0 <= k < |data| => MapRow(data[k]))
  }

  /** Parsing a species file: the first parser error, else the missing
      required columns, else the mapped rows once they validate. */
  function ParseSpeciesCsv(p: ParseOutput): (r: Result<seq<Species>, SpeciesError>)
    ensures |p.errors| > 0 ==> r == Err(ParserError(p.errors[0]))
    ensures |p.errors| == 0 && |MissingColumns(p.fields)| > 0 ==>
      r == Err(MissingRequiredColumns(MissingColumns(p.fields)))
    ensures r.Ok? ==> (
      && |r.value| == |p.data|
      && (forall k :: 0 <= k < |p.data| ==> r.value[k] == MapRow(p.data[k]))
      && SpeciesCheck(Some(r.value)) == Pass)
    ensures |p.errors| == 0 && |MissingColumns(p.fields)| == 0 && SpeciesCheck(Some(MapRows(p.data))).Fail? ==>
      r == Err(SpeciesCheck(Some(MapRows(p.data))).error)
  {
    if |p.errors| > 0 then Err(ParserError(p.errors[0]))
    else
      var missing := MissingColumns(p.fields);
      if |missing| > 0 then Err(MissingRequiredColumns(missing))
      else
        var speciesData := MapRows(p.data);
        match SpeciesCheck(Some(speciesData))
        case Fail(e) => Err(e)
        case Pass => Ok(speciesData)
  }

  /** A file whose header names both required columns and whose rows give
      the cells of a valid list is accepted, rows in file order. */
  lemma ParseAcceptsValidFile(p: ParseOutput)
    requires |p.errors| == 0 && "name" in p.fields && "proportion" in p.fields
    requires SpeciesCheck(Some(MapRows(p.data))) == Pass
    ensures ParseSpeciesCsv(p) == Ok(MapRows(p.data))
  {
  }

  /** The stored species list of the forest module. */
  class SpeciesStore {
    var loadedSpeciesData: Option<seq<Species>>

    /** Nothing is loaded at start. */
    constructor()
      ensures loadedSpeciesData == None
    {
      loadedSpeciesData := None;
    }

    /** Multi-species mode is on exactly when a non-empty list is stored. */
    predicate IsMultiSpeciesMode(): (on: bool)
      reads this
      ensures on ==> loadedSpeciesData.Some?
      ensures loadedSpeciesData.None? || loadedSpeciesData.value == [] ==> !on
      ensures loadedSpeciesData.Some? && loadedSpeciesData.value != [] ==> on
    {
      loadedSpeciesData.Some? && |loadedSpeciesData.value| > 0
    }

    method GetLoadedSpeciesData() returns (data: Option<seq<Species>>)
      ensures data == loadedSpeciesData
    {
      data := loadedSpeciesData;
    }

    /** Stores a list, replacing whatever was stored. */
    method HandleSpeciesData(speciesData: seq<Species>)
      modifies this
      ensures loadedSpeciesData == Some(speciesData)
      ensures IsMultiSpeciesMode() <==> |speciesData| > 0
    {
      loadedSpeciesData := Some(speciesData);
    }

    /** A species file has been read: parse it; store the list on success,
        report the error and keep the old list otherwise. */
    method OnCsvLoaded(p: ParseOutput) returns (error: Option<SpeciesError>)
      modifies this
      ensures ParseSpeciesCsv(p).Ok? ==> error.None? && loadedSpeciesData == Some(ParseSpeciesCsv(p).value)
      ensures ParseSpeciesCsv(p).Err? ==>
        error == Some(ParseSpeciesCsv(p).error) && loadedSpeciesData == old(loadedSpeciesData)
      ensures loadedSpeciesData.Some? ==> SpeciesCheck(loadedSpeciesData) == Pass || loadedSpeciesData == old(loadedSpeciesData)
    {
      match ParseSpeciesCsv(p)
      case Ok(speciesData) =>
        HandleSpeciesData(speciesData);
        error := None;
      case Err(e) =>
        error := Some(e);
    }
  }

  // ---------------------------------------------------------------------
  // Export of results

  datatype ExportError = NoResultsToExport

  datatype ExportTable = ExportTable(headers: seq<string>, rows: seq<seq<real>>)

  const ExportHeaders: seq<string> := [
    "Year",
    "Surviving Trees",
    "Growing Stock (m\U{00B3})",
    "Above-ground Biomass (t)",
    "Below-ground Biomass (t)",
    "Total Biomass (t)",
    "Carbon Content (t C)",
    "CO\U{2082}e (t)",
    "Annual CO\U{2082}e (t/yr)",
    "Cumulative CO\U{2082}e (t)"]

  /** One exported row: the ten fields of a year, in record order. */
  function ExportRow(y: YearRecord): (row: seq<real>)
    ensures |row| == |ExportHeaders| == 10
  {
    [y.year as real, y.survivingTrees as real, y.growingStock, y.aboveGroundBiomass,
     y.belowGroundBiomass, y.totalBiomass, y.carbonContent, y.co2e, y.annualIncrement,
     y.cumulativeCO2e]
  }

  /** Reading a year back from an exported row. */
  function RecordOfRow(row: seq<real>): YearRecord
    requires |row| == 10
  {
    YearRecord(row[0].Floor, row[1].Floor, row[2], row[3], row[4], row[5], row[6], row[7], row[8], row[9])
  }

  /** The export: an error when there are no results or no years, otherwise
      one row per year under the ten headers. */
  function ExportForestResults(results: Option<ResultSet>): (r: Result<ExportTable, ExportError>)
    ensures r.Err? <==> results.None? || |results.value.yearly| == 0
    ensures r.Ok? ==> (
      && r.value.headers == ExportHeaders
      && |r.value.rows| == |results.value.yearly|
      && forall k :: 0 <= k < |r.value.rows| ==> |r.value.rows[k]| == |r.value.headers|)
  {
    if results.None? || |results.value.yearly| == 0 then Err(NoResultsToExport)
    else
      var yearly := results.value.yearly;
      Ok(ExportTable(ExportHeaders, seq(|yearly|, k requires 0 <= k < |yearly| => ExportRow(yearly[k]))))
  }

  /** Nothing is lost in the export: every row reads back as its year. */
  lemma ExportRoundTrip(results: ResultSet, k: nat)
    requires k < |results.yearly|
    ensures var t := ExportForestResults(Some(results));
      t.Ok? && RecordOfRow(t.value.rows[k]) == results.yearly[k]
  {
    var y := results.yearly[k];
    assert (y.year as real).Floor == y.year;
    assert (y.survivingTrees as real).Floor == y.survivingTrees;
  }
}
