// The result definition the failure evaluator and the sampling point operators
// read: the combined failure criterion, the scopes, the files, and a few
// enumerated options whose setters reject unknown values. The constructor
// stores its arguments unchecked, so `to_dict` checks the measure again.
module ResultDefinitions {
  import opened Common
  import CombinedCriterion

  /** The expressions the evaluator supports. */
  const SupportedExpressions: seq<string> := ["composite_failure"]
  /** The failure measures the evaluator supports. */
  const SupportedMeasures: seq<string> := ["inverse_reserve_factor", "safety_factor", "safety_margin"]
  /** Stresses and strains come from the result file or are evaluated on the fly. */
  const SupportedStressStrainEvalModes: seq<string> := ["rst_file", "mapdl_live"]
  /** The format version `to_dict` writes. */
  const Version: int := 1
  /** How the evaluator accumulates over the criteria. */
  const Accumulator: string := "max"

  /** `ResultDefinitionScope`: a composite definition file with its element and ply scope. */
  datatype Scope = Scope(
    compositeDefinition: string,
    elementScope: seq<int>,
    plyScope: seq<string>,
    mappingFile: Option<string>,
    writeDataForFullElementScope: bool)

  /** `ResultDefinitionScope(composite_definition)`: every element and ply, no mapping file, full-scope output. */
  function DefaultScope(compositeDefinition: string): (s: Scope)
    ensures s.compositeDefinition == compositeDefinition
    ensures s.elementScope == [] && s.plyScope == [] && s.mappingFile.None? && s.writeDataForFullElementScope
  {
    Scope(compositeDefinition, [], [], None, true)
  }

  /** `[str(f)]` when a file is given, `[]` when it is None. */
  function OptionalFile(f: Option<string>): seq<Json>
  {
    if f.Some? then [JStr(f.value)] else []
  }

  /** `get_scope`: one scope's data sources and selection, each path a one-element list. */
  function ScopeDict(scope: Scope, rstFile: string, materialFile: string): seq<(string, Json)>
  {
    [("datasources", JObj([
        ("composite_definition", JArr([JStr(scope.compositeDefinition)])),
        ("assembly_mapping_file", JArr(OptionalFile(scope.mappingFile))),
        ("rst_file", JArr([JStr(rstFile)])),
        ("material_file", JArr([JStr(materialFile)]))])),
     ("write_data_for_full_element_scope", JBool(scope.writeDataForFullElementScope)),
     ("elements", JArr(seq(|scope.elementScope|, i requires 0 <= i < |scope.elementScope| => JNum(scope.elementScope[i] as real)))),
     ("ply_ids", JArr(seq(|scope.plyScope|, i requires 0 <= i < |scope.plyScope| => JStr(scope.plyScope[i]))))]
  }

  /** The assembly mapping list is empty exactly when the scope has no mapping file, and otherwise holds that file. */
  lemma MappingEntry(scope: Scope, rstFile: string, materialFile: string)
    ensures var sources := ScopeDict(scope, rstFile, materialFile)[0].1;
      sources.JObj? && sources.entries[1].0 == "assembly_mapping_file"
      && (sources.entries[1].1 == JArr([]) <==> scope.mappingFile.None?)
      && (scope.mappingFile.Some? ==> sources.entries[1].1 == JArr([JStr(scope.mappingFile.value)]))
  {
  }

  /** The `scopes` list: one dict per scope, in the scopes' order. */
  function ScopesList(scopes: seq<Scope>, rstFile: string, materialFile: string): (r: seq<Json>)
    ensures |r| == |scopes|
    ensures forall i :: 0 <= i < |r| ==> r[i] == JObj(ScopeDict(scopes[i], rstFile, materialFile))
  {
    seq(|scopes|, i requires 0 <= i < |scopes| => JObj(ScopeDict(scopes[i], rstFile, materialFile)))
  }

  class ResultDefinition {
    var name: string
    var expression: string
    /** The combined criterion, or null when there is none. */
    var combinedFailureCriterion: CombinedCriterion.CombinedFailureCriterion?
    var measure: string
    var scopes: seq<Scope>
    var rstFile: string
    var materialFile: string
    var stressStrainEvalMode: string
    var time: real
    var maxChunkSize: int

    /** `ResultDefinition(...)`: every argument stored as given, none checked. */
    constructor (name: string, combinedFailureCriterion: CombinedCriterion.CombinedFailureCriterion?,
                 scopes: seq<Scope>, rstFile: string, materialFile: string, measure: string,
                 stressStrainEvalMode: string, time: real, expression: string, maxChunkSize: int)
      ensures this.name == name && this.combinedFailureCriterion == combinedFailureCriterion
      ensures this.scopes == scopes && this.rstFile == rstFile && this.materialFile == materialFile
      ensures this.measure == measure && this.stressStrainEvalMode == stressStrainEvalMode
      ensures this.time == time && this.expression == expression && this.maxChunkSize == maxChunkSize
    {
      this.name := name;
      this.expression := expression;
      this.combinedFailureCriterion := combinedFailureCriterion;
      this.measure := measure;
      this.scopes := scopes;
      this.materialFile := materialFile;
      this.rstFile := rstFile;
      this.stressStrainEvalMode := stressStrainEvalMode;
      this.time := time;
      this.maxChunkSize := maxChunkSize;
    }

    /** `expression = value`: anything unsupported raises ValueError and keeps the old expression. */
    method SetExpression(value: string) returns (err: Option<Error>)
      modifies this`expression
      ensures value in SupportedExpressions ==> err == None && expression == value
      ensures value !in SupportedExpressions ==> err == Some(ValueError) && expression == old(expression)
    {
      if value in SupportedExpressions {
        expression := value;
        return None;
      }
      return Some(ValueError);
    }

    /** `measure = value`: anything unsupported raises ValueError and keeps the old measure. */
    method SetMeasure(value: string) returns (err: Option<Error>)
      modifies this`measure
      ensures value in SupportedMeasures ==> err == None && measure == value
      ensures value !in SupportedMeasures ==> err == Some(ValueError) && measure == old(measure)
    {
      if value !in SupportedMeasures {
        return Some(ValueError);
      }
      measure := value;
      return None;
    }

    /** `stress_strain_eval_mode = value`: anything but "rst_file" or "mapdl_live" raises ValueError and keeps the old mode. */
    method SetStressStrainEvalMode(value: string) returns (err: Option<Error>)
      modifies this`stressStrainEvalMode
      ensures value in SupportedStressStrainEvalModes ==> err == None && stressStrainEvalMode == value
      ensures value !in SupportedStressStrainEvalModes ==> err == Some(ValueError) && stressStrainEvalMode == old(stressStrainEvalMode)
    {
      if value in SupportedStressStrainEvalModes {
        stressStrainEvalMode := value;
        return None;
      }
      return Some(ValueError);
    }

    /**
     * `to_dict`: ValueError without a combined criterion or with an unsupported
     * measure; otherwise the evaluator's dict, the combined criterion's dict
     * under "criteria" and one scope dict per scope.
     */
    method ToDict() returns (r: Result<seq<(string, Json)>>)
      ensures combinedFailureCriterion == null ==> r == Err(ValueError)
      ensures combinedFailureCriterion != null && measure !in SupportedMeasures ==> r == Err(ValueError)
      ensures combinedFailureCriterion != null && measure in SupportedMeasures ==>
        r == Ok(ResultDict(expression, CombinedCriterion.CombinedDict(combinedFailureCriterion.failureCriteria),
                           measure, stressStrainEvalMode, time, maxChunkSize,
                           ScopesList(scopes, rstFile, materialFile)))
    {
      var cfc := combinedFailureCriterion;
      if cfc == null {
        return Err(ValueError);
      }
      if measure !in SupportedMeasures {
        return Err(ValueError);
      }
      var criteria := cfc.ToDict();
      return Ok(ResultDict(expression, criteria, measure, stressStrainEvalMode, time, maxChunkSize,
                           ScopesList(scopes, rstFile, materialFile)));
    }
  }

  /** The items `to_dict` writes before the scopes. */
  function Header(expression: string, criteria: seq<(string, Json)>, measure: string,
                  stressStrainEvalMode: string, time: real, maxChunkSize: int): (r: seq<(string, Json)>)
    ensures |r| == 8
  {
    [("version", JNum(Version as real)),
     ("accumulator", JStr(Accumulator)),
     ("expression", JStr(expression)),
     ("failure_criteria_definition", JObj([(CombinedCriterion.JsonDictKey, JObj(criteria))])),
     ("measures", JArr([JStr(measure)])),
     ("stress_strain_eval_mode", JStr(stressStrainEvalMode)),
     ("time", JNum(time)),
     ("max_chunk_size", JNum(maxChunkSize as real))]
  }

  /** The dict `to_dict` builds; `update` adds the new key "scopes" last. */
  function ResultDict(expression: string, criteria: seq<(string, Json)>, measure: string,
                      stressStrainEvalMode: string, time: real, maxChunkSize: int,
                      scopes: seq<Json>): seq<(string, Json)>
  {
    Header(expression, criteria, measure, stressStrainEvalMode, time, maxChunkSize) + [("scopes", JArr(scopes))]
  }

  /**
   * What the evaluator reads back from the dict: version 1, accumulator "max",
   * the one measure, the criteria under "criteria", and the scopes as given.
   */
  lemma ResultDictReadBack(expression: string, criteria: seq<(string, Json)>, measure: string,
                           stressStrainEvalMode: string, time: real, maxChunkSize: int, scopes: seq<Json>)
    ensures var d := ResultDict(expression, criteria, measure, stressStrainEvalMode, time, maxChunkSize, scopes);
      Lookup(d, "version") == Some(JNum(1.0))
      && Lookup(d, "accumulator") == Some(JStr("max"))
      && Lookup(d, "measures") == Some(JArr([JStr(measure)]))
      && Lookup(d, "failure_criteria_definition") == Some(JObj([("criteria", JObj(criteria))]))
      && Lookup(d, "scopes") == Some(JArr(scopes))
      && |d| == 9
  {
    var h := Header(expression, criteria, measure, stressStrainEvalMode, time, maxChunkSize);
    var d := ResultDict(expression, criteria, measure, stressStrainEvalMode, time, maxChunkSize, scopes);
    var lengths := seq(8, j requires 0 <= j < 8 => |h[j].0|);
    assert lengths == [7, 11, 10, 27, 8, 23, 4, 14];
    forall j | 0 <= j < 8 ensures d[j].0 != "scopes" {
      assert d[j] == h[j] && lengths[j] != 6;
    }
    forall j | 0 <= j < 4 ensures d[j].0 != "measures" {
      assert d[j] == h[j] && lengths[j] != 8;
    }
    LookupAt(d, 0);
    LookupAt(d, 1);
    LookupAt(d, 3);
    LookupAt(d, 4);
    LookupAt(d, 8);
  }
}
