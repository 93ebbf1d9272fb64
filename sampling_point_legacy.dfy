// The first sampling point: it sends its result definition to the sampling
// point operator on `update` and caches the parsed answer. Its getters answer
// None unless the cached results are up to date and not empty; assigning a new
// result definition makes them stale. The operator's answer is a parameter,
// given as a JSON list.
module LegacySamplingPoints {
  import opened Common
  import opened SamplingPointHelpers
  import ResultDefinitions
  import SamplingPoints

  /** The quantities the getters read from the first result. */
  datatype Quantity =
    | S1 | S2 | S3 | S12 | S13 | S23
    | E1 | E2 | E3 | E12 | E13 | E23
    | InverseReserveFactors | FailureModes | Offsets
    | PolarE1 | PolarE2 | PolarG12

  /** Where a getter finds its quantity in the first result. */
  function QuantityPath(q: Quantity): (path: seq<string>)
    ensures |path| == 2 || |path| == 3
    ensures path[0] == (if q.PolarE1? || q.PolarE2? || q.PolarG12? then "layup" else "results")
  {
    match q
    case S1 => ["results", "stresses", "s1"]
    case S2 => ["results", "stresses", "s2"]
    case S3 => ["results", "stresses", "s3"]
    case S12 => ["results", "stresses", "s12"]
    case S13 => ["results", "stresses", "s13"]
    case S23 => ["results", "stresses", "s23"]
    case E1 => ["results", "strains", "e1"]
    case E2 => ["results", "strains", "e2"]
    case E3 => ["results", "strains", "e3"]
    case E12 => ["results", "strains", "e12"]
    case E13 => ["results", "strains", "e13"]
    case E23 => ["results", "strains", "e23"]
    case InverseReserveFactors => ["results", "failures", "inverse_reserve_factor"]
    case FailureModes => ["results", "failures", "failure_modes"]
    case Offsets => ["results", "offsets"]
    case PolarE1 => ["layup", "polar_properties", "E1"]
    case PolarE2 => ["layup", "polar_properties", "E2"]
    case PolarG12 => ["layup", "polar_properties", "G12"]
  }

  /** Unlike the later sampling points, this `s23` getter reads the s23 stresses. */
  lemma S23ReadsS23()
    ensures QuantityPath(S23) == SamplingPoints.S23Path
    ensures QuantityPath(S23) != SamplingPoints.S23PathAsWritten
  {
    assert QuantityPath(S23)[2][1] != SamplingPoints.S23PathAsWritten[2][1];
  }

  class SamplingPoint {
    var name: string
    /** The result definition, or None. */
    var resultDefinition: ResultDefinitions.ResultDefinition?
    /** The definition the operator holds on its result-definition pin. */
    var operatorInput: Option<seq<(string, Json)>>
    var results: Option<seq<Json>>
    var uptodate: bool

    /** The constructor once the server and the operator exist: no results yet. */
    constructor (name: string, resultDefinition: ResultDefinitions.ResultDefinition?)
      ensures this.name == name && this.resultDefinition == resultDefinition
      ensures operatorInput.None? && results.None? && !uptodate
    {
      this.name := name;
      this.resultDefinition := resultDefinition;
      operatorInput := None;
      results := None;
      uptodate := false;
    }

    /** The cached results count only when up to date and not empty. */
    predicate Available()
      reads this
    {
      uptodate && results.Some? && results.value != []
    }

    /** The `results` getter: the cached results when available, else None. */
    function Results(): (r: Option<seq<Json>>)
      reads this
      ensures r.Some? <==> Available()
      ensures r.Some? ==> r == results
    {
      if Available() then results else None
    }

    /**
     * A quantity getter: None unless the results are available; otherwise the
     * quantity under the first result, where a missing key raises KeyError.
     */
    function Get(q: Quantity): (r: Result<Option<Json>>)
      reads this
      ensures !Available() ==> r == Ok(None)
      ensures Available() ==>
        match Subscript(results.value[0], QuantityPath(q))
        case Ok(v) => r == Ok(Some(v))
        case Err(e) => r == Err(e)
    {
      if !Available() then Ok(None)
      else match Subscript(results.value[0], QuantityPath(q))
        case Ok(v) => Ok(Some(v))
        case Err(e) => Err(e)
    }

    /** The `result_definition` setter: every getter answers None until the next `update`. */
    method SetResultDefinition(value: ResultDefinitions.ResultDefinition?)
      modifies this`resultDefinition, this`uptodate
      ensures resultDefinition == value && !uptodate
      ensures Results().None? && forall q :: Get(q) == Ok(None)
    {
      uptodate := false;
      resultDefinition := value;
    }

    /**
     * `update`: the definition is sent to the operator and its answer cached
     * as up to date. Without a definition it raises AttributeError, and
     * `to_dict`'s ValueError passes through; both leave everything as it was.
     */
    method Update(output: seq<Json>) returns (err: Option<Error>)
      modifies this`operatorInput, this`results, this`uptodate
      ensures resultDefinition == null ==> err == Some(AttributeError) && unchanged(this)
      ensures resultDefinition != null && SamplingPoints.DefinitionDict(resultDefinition).Err? ==>
        err == Some(SamplingPoints.DefinitionDict(resultDefinition).error) && unchanged(this)
      ensures resultDefinition != null && SamplingPoints.DefinitionDict(resultDefinition).Ok? ==>
        err.None? && operatorInput == Some(SamplingPoints.DefinitionDict(resultDefinition).value)
        && results == Some(output) && uptodate
      ensures err.None? && output != [] ==> Results() == Some(output)
      ensures err.None? && output != [] ==> forall q :: Get(q) == (match Subscript(output[0], QuantityPath(q))
                                                                    case Ok(v) => Ok(Some(v))
                                                                    case Err(e) => Err(e))
    {
      if resultDefinition == null {
        return Some(AttributeError);
      }
      var d := resultDefinition.ToDict();
      if d.Err? {
        return Some(d.error);
      }
      operatorInput := Some(d.value);
      results := Some(output);
      uptodate := true;
      return None;
    }
  }

  /** `SamplingPoint(name, result_definition, server)`: no server, or no operator, raises RuntimeError. */
  method NewSamplingPoint(name: string, resultDefinition: ResultDefinitions.ResultDefinition?,
                          serverAvailable: bool, operatorAvailable: bool) returns (r: Result<SamplingPoint>)
    ensures r.Ok? <==> serverAvailable && operatorAvailable
    ensures r.Err? ==> r.error == RuntimeError
    ensures r.Ok? ==> fresh(r.value) && r.value.name == name && r.value.resultDefinition == resultDefinition
    ensures r.Ok? ==> r.value.Results().None? && !r.value.uptodate
  {
    if !serverAvailable {
      return Err(RuntimeError);
    }
    if !operatorAvailable {
      return Err(RuntimeError);
    }
    var p := new SamplingPoint(name, resultDefinition);
    return Ok(p);
  }
}
