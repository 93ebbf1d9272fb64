// The sampling point of a layered element. It drives the sampling point
// operator with a result definition scoped to one element, re-sends the
// definition only when its digest changes, and caches the operator's JSON
// results together with the number of spots per ply and their interface
// indices. The digest of the sorted-key JSON is a parameter; the operator's
// answer is a parameter too, given as a JSON list.
module SamplingPoints {
  import opened Common
  import opened Layout
  import opened SamplingPointHelpers
  import ResultDefinitions
  import CombinedCriterion

  /** The fields `run` reads and writes, with the definition the operator holds. */
  datatype PointState = PointState(
    rdHash: string,
    operatorInput: Option<seq<(string, Json)>>,
    results: Option<seq<Json>>,
    spotsPerPly: int,
    interfaceIndices: map<Spot, int>,
    isUptodate: bool)

  /** `check_has_single_scope`: taken to accept exactly one scope. */
  predicate HasSingleScope(scopes: seq<ResultDefinitions.Scope>)
  {
    |scopes| == 1
  }

  /** What `to_dict` of the result definition answers, as `ResultDefinition.ToDict` states it. */
  function DefinitionDict(rd: ResultDefinitions.ResultDefinition): Result<seq<(string, Json)>>
    reads rd, rd.combinedFailureCriterion
  {
    var cfc := rd.combinedFailureCriterion;
    if cfc == null || rd.measure !in ResultDefinitions.SupportedMeasures then Err(ValueError)
    else Ok(ResultDefinitions.ResultDict(rd.expression, CombinedCriterion.CombinedDict(cfc.failureCriteria),
                                         rd.measure, rd.stressStrainEvalMode, rd.time, rd.maxChunkSize,
                                         ResultDefinitions.ScopesList(rd.scopes, rd.rstFile, rd.materialFile)))
  }

  /**
   * `int(len(e1) / len(analysis_plies))` on the one result: a missing key
   * raises KeyError, a value without a length TypeError, no plies
   * ZeroDivisionError.
   */
  function SpotsPerPlyOf(result: Json): (r: Result<int>)
    ensures r.Ok? ==> r.value >= 0
    ensures r.Ok? <==>
      Subscript(result, ["results", "strains", "e1"]).Ok? && Subscript(result, ["results", "strains", "e1"]).value.JArr?
      && Subscript(result, ["layup", "analysis_plies"]).Ok? && Subscript(result, ["layup", "analysis_plies"]).value.JArr?
      && Subscript(result, ["layup", "analysis_plies"]).value.items != []
    ensures r.Ok? ==>
      var e1 := |Subscript(result, ["results", "strains", "e1"]).value.items|;
      var plies := |Subscript(result, ["layup", "analysis_plies"]).value.items|;
      r.value * plies <= e1 < (r.value + 1) * plies
  {
    SpotsPerPly(Subscript(result, ["results", "strains", "e1"]), Subscript(result, ["layup", "analysis_plies"]))
  }

  /** The division itself, given the looked-up strains and plies; the strains are checked first. */
  function SpotsPerPly(e1: Result<Json>, plies: Result<Json>): (r: Result<int>)
    ensures r.Ok? ==> r.value >= 0
    ensures r.Ok? <==> e1.Ok? && e1.value.JArr? && plies.Ok? && plies.value.JArr? && plies.value.items != []
    ensures r.Ok? ==> r.value * |plies.value.items| <= |e1.value.items| < (r.value + 1) * |plies.value.items|
  {
    match e1
    case Err(e) => Err(e)
    case Ok(strains) =>
      if !strains.JArr? then Err(TypeError)
      else match plies
        case Err(e) => Err(e)
        case Ok(layup) =>
          if !layup.JArr? then Err(TypeError)
          else if layup.items == [] then Err(ZeroDivisionError)
          else
            DivBounds(|strains.items|, |layup.items|);
            Ok(|strains.items| / |layup.items|)
  }

  lemma DivBounds(a: int, n: int)
    requires a >= 0 && n > 0
    ensures a / n >= 0 && (a / n) * n <= a < (a / n + 1) * n
  {
    assert a == (a / n) * n + a % n;
  }

  /**
   * The spot dispatch of `run`: three spots are bottom, middle and top, two
   * are bottom and top, one raises RuntimeError, and any other count keeps
   * the indices found before.
   */
  function InterfaceIndicesFor(spotsPerPly: int, current: map<Spot, int>): (r: Result<map<Spot, int>>)
  {
    if spotsPerPly == 3 then Ok(ThreeSpotInterfaces())
    else if spotsPerPly == 2 then Ok(TwoSpotInterfaces())
    else if spotsPerPly == 1 then Err(RuntimeError)
    else Ok(current)
  }

  /**
   * With two or three spots per ply, every spot maps to a slot of the ply, the
   * bottom to the first and the top to the last; only a single spot is refused.
   */
  lemma InterfaceIndicesInPly(spotsPerPly: int, current: map<Spot, int>)
    ensures InterfaceIndicesFor(spotsPerPly, current).Err? <==> spotsPerPly == 1
    ensures spotsPerPly == 2 || spotsPerPly == 3 ==>
      var m := InterfaceIndicesFor(spotsPerPly, current).value;
      Bottom in m && Top in m && m[Bottom] == 0 && m[Top] == spotsPerPly - 1
      && (Middle in m <==> spotsPerPly == 3)
      && forall s :: s in m ==> 0 <= m[s] < spotsPerPly
    ensures spotsPerPly !in {1, 2, 3} ==> InterfaceIndicesFor(spotsPerPly, current) == Ok(current)
  {
  }

  /**
   * `run` on the fields, given what `to_dict` answers, the digest of a dict
   * and the operator's parsed answer: the new fields and the exception raised.
   * The definition is sent again, and the results marked stale, only when
   * its digest differs from the last one sent.
   */
  function RunOutcome(s: PointState, definition: Result<seq<(string, Json)>>,
                      digest: seq<(string, Json)> -> string, output: seq<Json>): (PointState, Option<Error>)
  {
    match definition
    case Err(e) => (s, Some(e))
    case Ok(d) =>
      var s1 := if digest(d) != s.rdHash then s.(operatorInput := Some(d), isUptodate := false, rdHash := digest(d)) else s;
      ReadOutcome(s1, output)
  }

  /**
   * The second half of `run`: the operator's answer is stored, it must hold
   * exactly one result, and the spots per ply and the interface indices are
   * read from it.
   */
  function ReadOutcome(s1: PointState, output: seq<Json>): (PointState, Option<Error>)
  {
    var s2 := s1.(results := Some(output));
    if output == [] || |output| > 1 then (s2, Some(RuntimeError))
    else
      var s3 := s2.(spotsPerPly := 0);
      match SpotsPerPlyOf(output[0])
      case Err(e) => (s3, Some(e))
      case Ok(spotsPerPly) =>
        var s4 := s3.(spotsPerPly := spotsPerPly);
        match InterfaceIndicesFor(spotsPerPly, s1.interfaceIndices)
        case Err(e) => (s4, Some(e))
        case Ok(m) => (s4.(interfaceIndices := m, isUptodate := true), None)
  }

  /** The stored digest is the digest of what the operator holds, or empty before anything was sent. */
  predicate DigestMatches(s: PointState, digest: seq<(string, Json)> -> string)
  {
    if s.operatorInput.Some? then s.rdHash == digest(s.operatorInput.value) else s.rdHash == ""
  }

  /**
   * With a digest that tells dicts apart and is never empty, `run` sends the
   * definition exactly when it differs from the one the operator holds, and
   * afterwards the operator holds it and the stored digest matches it.
   */
  lemma RunSendsOnlyChanges(s: PointState, d: seq<(string, Json)>, digest: seq<(string, Json)> -> string, output: seq<Json>)
    requires forall a, b :: digest(a) == digest(b) ==> a == b
    requires forall a :: digest(a) != ""
    requires DigestMatches(s, digest)
    ensures var t := RunOutcome(s, Ok(d), digest, output).0;
      t.operatorInput == Some(d) && DigestMatches(t, digest)
      && (t.rdHash != s.rdHash <==> s.operatorInput != Some(d))
      && (s.operatorInput != Some(d) ==> !t.isUptodate || RunOutcome(s, Ok(d), digest, output).1.None?)
  {
  }

  /**
   * `run` succeeds exactly when `to_dict` does, the operator answers one
   * result, its spot count is readable and is not 1; the results are then
   * that answer and up to date. A result for no element or for several raises RuntimeError.
   */
  lemma RunSucceeds(s: PointState, definition: Result<seq<(string, Json)>>,
                    digest: seq<(string, Json)> -> string, output: seq<Json>)
    ensures var (t, err) := RunOutcome(s, definition, digest, output);
      (err.None? <==> definition.Ok? && |output| == 1 && SpotsPerPlyOf(output[0]).Ok?
                      && SpotsPerPlyOf(output[0]).value != 1)
      && (definition.Ok? && |output| != 1 ==> err == Some(RuntimeError) && t.results == Some(output))
      && (err.None? ==> t.isUptodate && t.results == Some(output)
                        && t.spotsPerPly == SpotsPerPlyOf(output[0]).value
                        && t.interfaceIndices == InterfaceIndicesFor(t.spotsPerPly, s.interfaceIndices).value)
  {
  }

  /**
   * `_update_and_check_results`: up-to-date results are kept; otherwise `run`,
   * and results still absent raise RuntimeError.
   */
  function UpdateAndCheck(s: PointState, definition: Result<seq<(string, Json)>>,
                          digest: seq<(string, Json)> -> string, output: seq<Json>): (PointState, Option<Error>)
  {
    if s.isUptodate && s.results.Some? && s.results.value != [] then (s, None)
    else
      var (t, err) := RunOutcome(s, definition, digest, output);
      if err.Some? then (t, err)
      else if t.results.None? || t.results.value == [] then (t, Some(RuntimeError))
      else (t, None)
  }

  /** After a successful check the results are up to date and hold exactly one element's result. */
  lemma UpdateAndCheckUptodate(s: PointState, definition: Result<seq<(string, Json)>>,
                               digest: seq<(string, Json)> -> string, output: seq<Json>)
    ensures var (t, err) := UpdateAndCheck(s, definition, digest, output);
      (s.isUptodate && s.results.Some? && s.results.value != [] ==> t == s && err.None?)
      && (err.None? ==> t.isUptodate && t.results.Some? && t.results.value != [])
      && (err.None? && !(s.isUptodate && s.results.Some? && s.results.value != []) ==> t.results == Some(output))
  {
    RunSucceeds(s, definition, digest, output);
  }

  /** The path the `s23` getter reads as written. */
  const S23PathAsWritten: seq<string> := ["results", "stresses", "s13"]
  /** The path the `s23` getter reads as intended. */
  const S23Path: seq<string> := ["results", "stresses", "s23"]

  /** A result whose s13 stress is 1 and whose s23 stress is 2. */
  function ShearSample(): seq<Json>
  {
    [JObj([("results", JObj([("stresses", JObj([("s13", JArr([JNum(1.0)])), ("s23", JArr([JNum(2.0)]))]))]))])]
  }

  /**
   * On a result whose s13 stress is 1 and whose s23 stress is 2, the `s23`
   * getter as written answers 1, the s13 stress; the intended getter answers 2.
   */
  lemma S23AsWrittenAnswersS13()
    ensures DataFromSpResults(S23PathAsWritten, Some(ShearSample())) == Ok(JArr([JNum(1.0)]))
    ensures DataFromSpResults(S23Path, Some(ShearSample())) == Ok(JArr([JNum(2.0)]))
  {
    var stresses := [("s13", JArr([JNum(1.0)])), ("s23", JArr([JNum(2.0)]))];
    assert "s13" != "s23" by {
      assert "s13"[1] != "s23"[1];
    }
    assert Lookup(stresses, "s23") == Some(JArr([JNum(2.0)])) by {
      LookupAt(stresses, 1);
    }
    assert Lookup(stresses, "s13") == Some(JArr([JNum(1.0)])) by {
      LookupAt(stresses, 0);
    }
    var inner := [("stresses", JObj(stresses))];
    var outer := [("results", JObj(inner))];
    assert Lookup(inner, "stresses") == Some(JObj(stresses)) by {
      LookupAt(inner, 0);
    }
    assert Lookup(outer, "results") == Some(JObj(inner)) by {
      LookupAt(outer, 0);
    }
    assert S23Path[1..][1..][1..] == [];
    assert S23PathAsWritten[1..][1..][1..] == [];
  }

  class SamplingPoint {
    var name: string
    /** The result definition; never None, since the constructor and the setter call a method on it. */
    var resultDefinition: ResultDefinitions.ResultDefinition
    var rdHash: string
    /** The definition the operator holds on its result-definition pin. */
    var operatorInput: Option<seq<(string, Json)>>
    var results: Option<seq<Json>>
    var spotsPerPly: int
    var interfaceIndices: map<Spot, int>
    var isUptodate: bool

    /** The fields `run` reads and writes. */
    function State(): PointState
      reads this
    {
      PointState(rdHash, operatorInput, results, spotsPerPly, interfaceIndices, isUptodate)
    }

    /** The constructor once the scope is checked and the server and operator exist. */
    constructor (name: string, resultDefinition: ResultDefinitions.ResultDefinition)
      ensures this.name == name && this.resultDefinition == resultDefinition
      ensures rdHash == "" && operatorInput.None? && results.None?
      ensures spotsPerPly == 0 && interfaceIndices == map[] && !isUptodate
    {
      this.name := name;
      this.resultDefinition := resultDefinition;
      rdHash := "";
      operatorInput := None;
      results := None;
      spotsPerPly := 0;
      interfaceIndices := map[];
      isUptodate := false;
    }

    /** The `name` setter. */
    method SetName(value: string)
      modifies this`name
      ensures name == value
    {
      name := value;
    }

    /** The `result_definition` setter: a definition without a single scope raises RuntimeError; otherwise the results are stale. */
    method SetResultDefinition(value: ResultDefinitions.ResultDefinition) returns (err: Option<Error>)
      modifies this`resultDefinition, this`isUptodate
      ensures !HasSingleScope(value.scopes) ==> err == Some(RuntimeError) && resultDefinition == old(resultDefinition) && isUptodate == old(isUptodate)
      ensures HasSingleScope(value.scopes) ==> err.None? && resultDefinition == value && !isUptodate
    {
      if !HasSingleScope(value.scopes) {
        return Some(RuntimeError);
      }
      isUptodate := false;
      resultDefinition := value;
      return None;
    }

    /**
     * The `element_id` getter: the element scope of the first scope; more than
     * one element raises RuntimeError, none answers None, no scope IndexError.
     */
    function ElementId(): (r: Result<Option<int>>)
      reads this, resultDefinition
      ensures resultDefinition.scopes == [] ==> r == Err(IndexError)
      ensures resultDefinition.scopes != [] ==>
        var ids := resultDefinition.scopes[0].elementScope;
        (|ids| > 1 ==> r == Err(RuntimeError))
        && (ids == [] ==> r == Ok(None))
        && (|ids| == 1 ==> r == Ok(Some(ids[0])))
    {
      if resultDefinition.scopes == [] then Err(IndexError)
      else
        var ids := resultDefinition.scopes[0].elementScope;
        if |ids| > 1 then Err(RuntimeError)
        else if ids == [] then Ok(None)
        else Ok(Some(ids[0]))
    }

    /**
     * The `element_id` setter: the first scope's elements become `[value]` and
     * the results are stale, so the getter answers `value`; the other scopes
     * and scope fields are kept. Without a scope it raises IndexError.
     */
    method SetElementId(value: int) returns (err: Option<Error>)
      modifies resultDefinition`scopes, this`isUptodate
      ensures old(resultDefinition.scopes) == [] ==> err == Some(IndexError) && resultDefinition.scopes == [] && isUptodate == old(isUptodate)
      ensures old(resultDefinition.scopes) != [] ==>
        err.None? && !isUptodate && ElementId() == Ok(Some(value))
        && resultDefinition.scopes == old(resultDefinition.scopes)[0 := old(resultDefinition.scopes)[0].(elementScope := [value])]
    {
      var rd := resultDefinition;
      if rd.scopes == [] {
        return Some(IndexError);
      }
      rd.scopes := rd.scopes[0 := rd.scopes[0].(elementScope := [value])];
      isUptodate := false;
      return None;
    }

    /** `run`: see `RunOutcome`, with the answer of the definition's `to_dict`. */
    method Run(digest: seq<(string, Json)> -> string, output: seq<Json>) returns (err: Option<Error>)
      modifies this`rdHash, this`operatorInput, this`results, this`spotsPerPly, this`interfaceIndices, this`isUptodate
      ensures (State(), err) == RunOutcome(old(State()), DefinitionDict(resultDefinition), digest, output)
    {
      var d := resultDefinition.ToDict();
      if d.Err? {
        return Some(d.error);
      }
      var newHash := digest(d.value);
      if newHash != rdHash {
        operatorInput := Some(d.value);
        isUptodate := false;
        rdHash := newHash;
      }
      err := ReadResults(output);
    }

    /** The second half of `run`: see `ReadOutcome`. */
    method ReadResults(output: seq<Json>) returns (err: Option<Error>)
      modifies this`results, this`spotsPerPly, this`interfaceIndices, this`isUptodate
      ensures (State(), err) == ReadOutcome(old(State()), output)
    {
      results := Some(output);
      if output == [] {
        return Some(RuntimeError);
      }
      if |output| > 1 {
        return Some(RuntimeError);
      }
      spotsPerPly := 0;
      var counted := SpotsPerPlyOf(output[0]);
      if counted.Err? {
        return Some(counted.error);
      }
      spotsPerPly := counted.value;
      if spotsPerPly == 3 {
        interfaceIndices := ThreeSpotInterfaces();
      } else if spotsPerPly == 2 {
        interfaceIndices := TwoSpotInterfaces();
      } else if spotsPerPly == 1 {
        return Some(RuntimeError);
      }
      isUptodate := true;
      return None;
    }

    /** `_update_and_check_results`: see `UpdateAndCheck`. */
    method UpdateAndCheckResults(digest: seq<(string, Json)> -> string, output: seq<Json>) returns (err: Option<Error>)
      modifies this`rdHash, this`operatorInput, this`results, this`spotsPerPly, this`interfaceIndices, this`isUptodate
      ensures (State(), err) == UpdateAndCheck(old(State()), DefinitionDict(resultDefinition), digest, output)
    {
      if !isUptodate || results.None? || results.value == [] {
        err := Run(digest, output);
        if err.Some? {
          return;
        }
      }
      if results.None? || results.value == [] {
        return Some(RuntimeError);
      }
      return None;
    }

    /** A result getter: the results brought up to date, then the value at `path` under the first result. */
    method Get(path: seq<string>, digest: seq<(string, Json)> -> string, output: seq<Json>) returns (r: Result<Json>)
      modifies this`rdHash, this`operatorInput, this`results, this`spotsPerPly, this`interfaceIndices, this`isUptodate
      ensures var (t, err) := UpdateAndCheck(old(State()), DefinitionDict(resultDefinition), digest, output);
        State() == t && r == (if err.Some? then Err(err.value) else DataFromSpResults(path, t.results))
    {
      var err := UpdateAndCheckResults(digest, output);
      if err.Some? {
        return Err(err.value);
      }
      return DataFromSpResults(path, results);
    }

    /** The `s23` getter as written: it reads the s13 stresses. */
    method S23AsWritten(digest: seq<(string, Json)> -> string, output: seq<Json>) returns (r: Result<Json>)
      modifies this`rdHash, this`operatorInput, this`results, this`spotsPerPly, this`interfaceIndices, this`isUptodate
      ensures var (t, err) := UpdateAndCheck(old(State()), DefinitionDict(resultDefinition), digest, output);
        State() == t && r == (if err.Some? then Err(err.value) else DataFromSpResults(S23PathAsWritten, t.results))
    {
      r := Get(S23PathAsWritten, digest, output);
    }

    /** The `s23` getter as intended: it reads the s23 stresses. */
    method S23(digest: seq<(string, Json)> -> string, output: seq<Json>) returns (r: Result<Json>)
      modifies this`rdHash, this`operatorInput, this`results, this`spotsPerPly, this`interfaceIndices, this`isUptodate
      ensures var (t, err) := UpdateAndCheck(old(State()), DefinitionDict(resultDefinition), digest, output);
        State() == t && r == (if err.Some? then Err(err.value) else DataFromSpResults(S23Path, t.results))
    {
      r := Get(S23Path, digest, output);
    }
  }

  /**
   * `SamplingPoint(name, result_definition)`: a definition without a single
   * scope raises RuntimeError, then a missing server or operator does.
   */
  method NewSamplingPoint(name: string, resultDefinition: ResultDefinitions.ResultDefinition,
                          serverAvailable: bool, operatorAvailable: bool) returns (r: Result<SamplingPoint>)
    ensures r.Ok? <==> HasSingleScope(resultDefinition.scopes) && serverAvailable && operatorAvailable
    ensures r.Err? ==> r.error == RuntimeError
    ensures r.Ok? ==> fresh(r.value) && r.value.name == name && r.value.resultDefinition == resultDefinition
    ensures r.Ok? ==> !r.value.isUptodate && r.value.results.None? && r.value.spotsPerPly == 0 && r.value.rdHash == ""
  {
    if !HasSingleScope(resultDefinition.scopes) {
      return Err(RuntimeError);
    }
    if !serverAvailable || !operatorAvailable {
      return Err(RuntimeError);
    }
    var p := new SamplingPoint(name, resultDefinition);
    return Ok(p);
  }
}
