/**
 * The forest calculator's entry points: run the single- or multi-species
 * engine, keep the last result in a single slot, reset it and read it.
 */
module ForestMain {
  import opened Js
  import opened ForestCalcs
  import opened ForestMultiSpecies
  import ForestIO

  /** The species list the engine runs on: the multi-species engine when a
      non-empty list is loaded, the single-species engine otherwise. */
  function ForestEngine(inp: ProjectInputs, speciesData: Option<seq<Species>>): (r: ResultSet)
    requires EngineReady(inp)
    requires speciesData.Some? && |speciesData.value| > 0 ==> AllUsable(speciesData.value)
  {
    if speciesData.Some? && |speciesData.value| > 0 then MultiSpecies(inp, speciesData.value)
    else Sequestration(inp)
  }

  /** A per-species breakdown appears exactly when the multi-species engine
      ran, and then it lists every loaded species. */
  lemma EngineChoice(inp: ProjectInputs, speciesData: Option<seq<Species>>)
    requires EngineReady(inp)
    requires speciesData.Some? && |speciesData.value| > 0 ==> AllUsable(speciesData.value)
    ensures var r := ForestEngine(inp, speciesData);
      && (r.species.Some? <==> speciesData.Some? && |speciesData.value| > 0)
      && (r.species.Some? ==> |r.species.value| == |speciesData.value|)
      && (r.species.None? ==> |r.yearly| == inp.projectDuration)
  {
  }

  /** The species list held by the loader, when there is a loader. */
  function LoadedSpecies(io: ForestIO.SpeciesStore?): Option<seq<Species>>
    reads io
  {
    if io == null then None else io.loadedSpeciesData
  }

  /** The forest calculator with its single result slot. */
  class ForestCalculator {
    var lastForestResults: Option<ResultSet>

    /** No result before the first calculation. */
    constructor()
      ensures lastForestResults == None
    {
      lastForestResults := None;
    }

    /**
     * One calculation. Without an event system nothing happens. Otherwise
     * the engine runs on the loaded species (if any), its result is stored
     * and returned; a step after the store write that throws
     * (`laterStepThrows`) makes the call return nothing, but the stored
     * result stays.
     */
    method CalculateForest(formData: ProjectInputs, eventSystemPresent: bool, io: ForestIO.SpeciesStore?,
                           laterStepThrows: bool)
      returns (r: Option<ResultSet>)
      requires eventSystemPresent ==> EngineReady(formData)
      requires eventSystemPresent && io != null && io.IsMultiSpeciesMode() ==>
        AllUsable(io.loadedSpeciesData.value)
      modifies this
      ensures !eventSystemPresent ==> r.None? && lastForestResults == old(lastForestResults)
      ensures eventSystemPresent ==> lastForestResults == Some(ForestEngine(formData, LoadedSpecies(io)))
      ensures eventSystemPresent ==> r == if laterStepThrows then None else lastForestResults
    {
      if !eventSystemPresent {
        return None;
      }
      var speciesData: Option<seq<Species>> := None;
      var isMultiSpeciesMode := false;
      if io != null {
        speciesData := io.GetLoadedSpeciesData();
        isMultiSpeciesMode := io.IsMultiSpeciesMode();
      }
      var results: ResultSet;
      if isMultiSpeciesMode && speciesData.Some? {
        results := CalculateSequestrationMultiSpecies(formData, speciesData.value);
      } else {
        results := CalculateSequestration(formData);
      }
      lastForestResults := Some(results);
      if laterStepThrows {
        return None;
      }
      return Some(results);
    }

    /** Clears the slot. */
    method ResetForest()
      modifies this
      ensures lastForestResults == None
    {
      lastForestResults := None;
    }

    method GetLastResults() returns (r: Option<ResultSet>)
      ensures r == lastForestResults
    {
      r := lastForestResults;
    }
  }
}
