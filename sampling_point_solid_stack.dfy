// The sampling point of a stack of solid elements. `run` evaluates the stack
// of the selected element, builds the ply offsets from the ply thicknesses and
// accepts only results with two spots (bottom and top) per ply; the setters of
// the element and of the criterion mark the cached results as stale. What the
// server's stress, strain and failure operators answer is a parameter.
module SolidStackSamplingPoints {
  import opened Common
  import opened Layout
  import opened SamplingPointTypes
  import opened SamplingPointHelpers
  import opened SolidStackInfo
  import Versions
  import CombinedCriterion

  /** The six components of a symmetric tensor, each listed through the thickness. */
  datatype Components = Components(
    c1: seq<real>, c2: seq<real>, c3: seq<real>, c12: seq<real>, c13: seq<real>, c23: seq<real>)

  /** What the result operators answer: the time ids and the values through the stack. */
  datatype Evaluation = Evaluation(
    stressTimes: seq<real>,
    strainTimes: seq<real>,
    stresses: Components,
    strains: Components,
    failures: seq<FailureResult>)

  /** The one entry of `_results` that `run` builds. */
  datatype StackResult = StackResult(
    elementLabel: int,
    analysisPlies: seq<(string, real)>,
    failures: seq<FailureResult>,
    strains: Components,
    stresses: Components,
    offsets: seq<real>)

  /** The fields `run` reads and writes. */
  datatype RunState = RunState(
    elementId: Option<int>,
    time: Option<real>,
    solidStack: Option<SolidStack>,
    results: Option<StackResult>,
    spotsPerPly: int,
    interfaceIndices: map<Spot, int>,
    isUptodate: bool)

  /** `if not self.element_id`: None and 0 count as unset. */
  predicate ElementSet(id: Option<int>)
  {
    id.Some? && id.value != 0
  }

  /** `if not self._time`: None and 0.0 count as unset. */
  predicate TimeSet(time: Option<real>)
  {
    time.Some? && time.value != 0.0
  }

  // ----- offsets -----

  /** The thickness of a list of plies. */
  function Thickness(plies: seq<(string, real)>): real
  {
    if plies == [] then 0.0 else Thickness(plies[..|plies| - 1]) + plies[|plies| - 1].1
  }

  /** The offsets of the bottom and top of every ply: the thickness below it, and with it. */
  function StackOffsets(plies: seq<(string, real)>): (r: seq<real>)
    ensures |r| == 2 * |plies|
  {
    seq(2 * |plies|, k requires 0 <= k < 2 * |plies| => Thickness(plies[..(k + 1) / 2]))
  }

  /**
   * The offsets loop of `run`: `[0, t0]` for the first ply, then for every
   * later ply the last offset again and the last offset plus its thickness.
   */
  method PlyOffsets(plies: seq<(string, real)>) returns (offsets: seq<real>)
    ensures offsets == StackOffsets(plies)
  {
    offsets := [];
    var index := 0;
    while index < |plies|
      invariant 0 <= index <= |plies|
      invariant |offsets| == 2 * index
      invariant forall k :: 0 <= k < |offsets| ==> offsets[k] == Thickness(plies[..(k + 1) / 2])
    {
      assert plies[..index + 1][..index] == plies[..index];
      if index == 0 {
        offsets := offsets + [0.0, plies[index].1];
      } else {
        offsets := offsets + [offsets[|offsets| - 1]];
        offsets := offsets + [offsets[|offsets| - 1] + plies[index].1];
      }
      index := index + 1;
    }
  }

  /**
   * Ply `i` spans its thickness from its bottom offset to its top offset; the
   * first ply starts at 0 and every other ply starts where the one below ends.
   */
  lemma OffsetsOfPly(plies: seq<(string, real)>, i: int)
    requires 0 <= i < |plies|
    ensures var r := StackOffsets(plies);
      r[2 * i] == Thickness(plies[..i])
      && r[2 * i + 1] - r[2 * i] == plies[i].1
      && (i == 0 ==> r[0] == 0.0)
      && (i > 0 ==> r[2 * i] == r[2 * i - 1])
  {
    assert plies[..i + 1][..i] == plies[..i];
    assert (2 * i + 1) / 2 == i && (2 * i + 2) / 2 == i + 1 && (2 * i) / 2 == i;
  }

  /** The last offset is the thickness of the whole stack. */
  lemma TopOffsetIsStackThickness(plies: seq<(string, real)>)
    requires plies != []
    ensures StackOffsets(plies)[2 * |plies| - 1] == Thickness(plies)
  {
    var n := |plies|;
    assert plies[..n] == plies;
    assert (2 * n - 1 + 1) / 2 == n;
    assert StackOffsets(plies)[2 * n - 1] == Thickness(plies[..n]);
  }

  /** The top spot of ply `p` reads the offset at the thickness of plies `0 .. p`. */
  lemma TopSpotOffset(plies: seq<(string, real)>, p: int)
    requires 0 <= p < |plies|
    ensures var idx := PlyIndices(SortInts(SpotIndices(TwoSpotInterfaces(), [Top]).value), |plies|, 2);
      |idx| == |plies| && idx[p] == 2 * p + 1 && StackOffsets(plies)[idx[p]] == Thickness(plies[..p + 1])
  {
    TopSpotOfTwoSpotPlies(|plies|);
    TopOfPly(plies, p);
  }

  /** The offset of the top of ply `p`. */
  lemma TopOfPly(plies: seq<(string, real)>, p: int)
    requires 0 <= p < |plies|
    ensures StackOffsets(plies)[2 * p + 1] == Thickness(plies[..p + 1])
  {
    assert (2 * p + 1 + 1) / 2 == p + 1;
  }

  // ----- run -----

  /**
   * The time `run` evaluates: the given one, or else the last stress time,
   * which must be the last strain time too. An empty list raises IndexError.
   */
  function ResolveTime(time: Option<real>, ev: Evaluation): (r: Result<real>)
    ensures TimeSet(time) ==> r == Ok(time.value)
    ensures !TimeSet(time) ==>
      (r.Ok? <==> ev.stressTimes != [] && ev.strainTimes != []
                  && ev.stressTimes[|ev.stressTimes| - 1] == ev.strainTimes[|ev.strainTimes| - 1])
    ensures !TimeSet(time) && r.Ok? ==> r.value == ev.stressTimes[|ev.stressTimes| - 1]
    ensures r.Err? ==> r.error == IndexError || r.error == RuntimeError
  {
    if TimeSet(time) then Ok(time.value)
    else if ev.stressTimes == [] || ev.strainTimes == [] then Err(IndexError)
    else if ev.strainTimes[|ev.strainTimes| - 1] != ev.stressTimes[|ev.stressTimes| - 1] then Err(RuntimeError)
    else Ok(ev.stressTimes[|ev.stressTimes| - 1])
  }

  /** The spot dispatch of `run`: only two spots per ply are accepted. */
  function SolidInterfaceIndices(spotsPerPly: int): (r: Result<map<Spot, int>>)
    ensures r.Ok? <==> spotsPerPly == 2
    ensures r.Ok? ==> r.value == TwoSpotInterfaces() && Bottom in r.value && Top in r.value && Middle !in r.value
    ensures r.Err? ==> r.error == RuntimeError
  {
    if spotsPerPly == 3 then Err(RuntimeError)
    else if spotsPerPly == 2 then Ok(TwoSpotInterfaces())
    else if spotsPerPly == 1 then Err(RuntimeError)
    else Err(RuntimeError)
  }

  /**
   * `run` on the fields, given the stack the provider answers for the element
   * and the operators' answers: the new fields and the exception raised.
   * Each step keeps what the steps before it stored.
   */
  function RunOutcome(s: RunState, stack: Option<SolidStack>, ev: Evaluation): (RunState, Option<Error>)
  {
    if !ElementSet(s.elementId) then (s, Some(RuntimeError))
    else
      var s1 := s.(solidStack := stack);
      if stack.None? then (s1, Some(RuntimeError))
      else match ResolveTime(s.time, ev)
        case Err(e) => (s1, Some(e))
        case Ok(t) =>
          var s2 := s1.(time := Some(t));
          match FlatPlies(stack.value, |stack.value.elementIds|)
          case Err(e) => (s2, Some(e))
          case Ok(plies) =>
            var result := StackResult(s.elementId.value, plies, ev.failures, ev.strains, ev.stresses, StackOffsets(plies));
            var s3 := s2.(results := Some(result), spotsPerPly := 0);
            if plies == [] then (s3, Some(ZeroDivisionError))
            else
              var s4 := s3.(spotsPerPly := |ev.strains.c1| / |plies|);
              match SolidInterfaceIndices(s4.spotsPerPly)
              case Err(e) => (s4, Some(e))
              case Ok(indices) => (s4.(interfaceIndices := indices, isUptodate := true), None)
  }

  /**
   * `run` succeeds exactly when the element is set, its stack is found, the
   * time resolves, the plies are readable and there are two strain values per
   * ply; it then caches the stack's results under the resolved time, with the
   * offsets of the plies, and the results are up to date.
   */
  lemma RunSucceeds(s: RunState, stack: Option<SolidStack>, ev: Evaluation)
    ensures var (t, err) := RunOutcome(s, stack, ev);
      (err.None? <==>
        ElementSet(s.elementId) && stack.Some? && ResolveTime(s.time, ev).Ok?
        && FlatPlies(stack.value, |stack.value.elementIds|).Ok?
        && var plies := FlatPlies(stack.value, |stack.value.elementIds|).value;
           plies != [] && 2 * |plies| <= |ev.strains.c1| < 3 * |plies|)
      && (err.None? ==>
        var plies := FlatPlies(stack.value, |stack.value.elementIds|).value;
        t.isUptodate && t.spotsPerPly == 2 && t.interfaceIndices == TwoSpotInterfaces()
        && t.solidStack == stack && t.time == Some(ResolveTime(s.time, ev).value)
        && t.results == Some(StackResult(s.elementId.value, plies, ev.failures, ev.strains, ev.stresses, StackOffsets(plies))))
  {
    if ElementSet(s.elementId) && stack.Some? && ResolveTime(s.time, ev).Ok?
       && FlatPlies(stack.value, |stack.value.elementIds|).Ok? {
      var n := |FlatPlies(stack.value, |stack.value.elementIds|).value|;
      var e1 := |ev.strains.c1|;
      if n > 0 {
        assert e1 / n == 2 <==> 2 * n <= e1 < 3 * n by {
          DivTwo(e1, n);
        }
      }
    }
  }

  /** `a / n` is 2 exactly when `a` lies in `[2n, 3n)`. */
  lemma DivTwo(a: int, n: int)
    requires a >= 0 && n > 0
    ensures a / n == 2 <==> 2 * n <= a < 3 * n
  {
    var q := a / n;
    assert a == q * n + a % n && 0 <= a % n < n;
    if q <= 1 {
      assert q * n <= n;
    } else if q >= 3 {
      assert q * n >= 3 * n;
    }
  }

  /**
   * A failed `run` leaves the up-to-date flag and the interface indices as they
   * were; without a set element or a found stack it stores no results either.
   */
  lemma RunFailureKeeps(s: RunState, stack: Option<SolidStack>, ev: Evaluation)
    ensures var (t, err) := RunOutcome(s, stack, ev);
      err.Some? ==> t.isUptodate == s.isUptodate && t.interfaceIndices == s.interfaceIndices
                    && t.elementId == s.elementId
                    && (!ElementSet(s.elementId) ==> t == s && err == Some(RuntimeError))
                    && (ElementSet(s.elementId) && stack.None? ==>
                          t == s.(solidStack := None) && err == Some(RuntimeError))
  {
  }

  /** Without an explicit time, a successful `run` evaluates the last time of both the stresses and the strains. */
  lemma RunDefaultsTimeToLast(s: RunState, stack: Option<SolidStack>, ev: Evaluation)
    requires !TimeSet(s.time)
    ensures var (t, err) := RunOutcome(s, stack, ev);
      err.None? ==> ev.stressTimes != [] && ev.strainTimes != []
                    && t.time == Some(ev.stressTimes[|ev.stressTimes| - 1])
                    && t.time == Some(ev.strainTimes[|ev.strainTimes| - 1])
  {
  }

  /**
   * `_update_and_check_results`: up-to-date results are kept; otherwise `run`,
   * and results still absent raise RuntimeError. The results on success.
   */
  function UpdateAndCheck(s: RunState, stack: Option<SolidStack>, ev: Evaluation): (RunState, Result<StackResult>)
  {
    if s.isUptodate && s.results.Some? then (s, Ok(s.results.value))
    else
      var (t, err) := RunOutcome(s, stack, ev);
      if err.Some? then (t, Err(err.value))
      else if t.results.None? then (t, Err(RuntimeError))
      else (t, Ok(t.results.value))
  }

  /** The results a getter reads are up to date, and come from a `run` unless they already were. */
  lemma UpdateAndCheckUptodate(s: RunState, stack: Option<SolidStack>, ev: Evaluation)
    ensures var (t, r) := UpdateAndCheck(s, stack, ev);
      (s.isUptodate && s.results.Some? ==> t == s && r == Ok(s.results.value))
      && (r.Ok? ==> t.isUptodate && t.results == Some(r.value))
      && (!(s.isUptodate && s.results.Some?) ==>
            (r.Ok? <==> RunOutcome(s, stack, ev).1.None?))
  {
    RunSucceeds(s, stack, ev);
  }

  /** `s13`: the out-of-plane shear stresses s13. */
  function ReadS13(r: StackResult): seq<real>
  {
    r.stresses.c13
  }

  /** `s23` as written: it reads the "s13" entry. */
  function ReadS23AsWritten(r: StackResult): seq<real>
  {
    r.stresses.c13
  }

  /** `s23` as intended: the out-of-plane shear stresses s23. */
  function ReadS23(r: StackResult): seq<real>
  {
    r.stresses.c23
  }

  /**
   * After a `run` on stresses whose s13 and s23 differ, the `s23` getter as
   * written answers the s13 stresses and not the s23 ones; the intended
   * getter answers the s23 stresses.
   */
  lemma S23AsWrittenAnswersS13(s: RunState, stack: Option<SolidStack>, ev: Evaluation)
    requires !s.isUptodate && ev.stresses.c13 != ev.stresses.c23
    requires UpdateAndCheck(s, stack, ev).1.Ok?
    ensures var r := UpdateAndCheck(s, stack, ev).1.value;
      ReadS23AsWritten(r) == ev.stresses.c13 != ev.stresses.c23
      && ReadS23(r) == ev.stresses.c23
      && ReadS23AsWritten(r) == ReadS13(r)
  {
    RunSucceeds(s, stack, ev);
  }

  class SolidStackSamplingPoint {
    var name: string
    var elementId: Option<int>
    var combinedCriterion: CombinedCriterion.CombinedFailureCriterion
    var time: Option<real>
    /** The provider of the element stacks, built once for the mesh and lay-up. */
    const provider: SolidStackProvider
    var solidStack: Option<SolidStack>
    var results: Option<StackResult>
    var spotsPerPly: int
    var interfaceIndices: map<Spot, int>
    var isUptodate: bool

    /** The fields `run` reads and writes. */
    function State(): RunState
      reads this
    {
      RunState(elementId, time, solidStack, results, spotsPerPly, interfaceIndices, isUptodate)
    }

    /** The stack `run` asks the provider for, when the element is set. */
    function StackForElement(): Option<SolidStack>
      reads this, provider
      requires provider.Valid()
    {
      if ElementSet(elementId) then provider.GetSolidStack(elementId.value) else None
    }

    /** The constructor once the server is new enough: nothing evaluated yet. */
    constructor (name: string, elementId: int, combinedCriterion: CombinedCriterion.CombinedFailureCriterion,
                 provider: SolidStackProvider, time: Option<real>)
      ensures this.name == name && this.elementId == Some(elementId) && this.time == time
      ensures this.combinedCriterion == combinedCriterion && this.provider == provider
      ensures solidStack.None? && results.None? && spotsPerPly == 0 && interfaceIndices == map[] && !isUptodate
    {
      this.name := name;
      this.elementId := Some(elementId);
      this.time := time;
      this.combinedCriterion := combinedCriterion;
      this.provider := provider;
      spotsPerPly := 0;
      interfaceIndices := map[];
      results := None;
      isUptodate := false;
      solidStack := None;
    }

    /** The `name` setter: the results stay as they are. */
    method SetName(value: string)
      modifies this`name
      ensures name == value
    {
      name := value;
    }

    /** The `element_id` setter: the results are stale. */
    method SetElementId(value: int)
      modifies this`elementId, this`isUptodate
      ensures elementId == Some(value) && !isUptodate
    {
      elementId := Some(value);
      isUptodate := false;
    }

    /** The `combined_criterion` setter: the results are stale. */
    method SetCombinedCriterion(value: CombinedCriterion.CombinedFailureCriterion)
      modifies this`combinedCriterion, this`isUptodate
      ensures combinedCriterion == value && !isUptodate
    {
      combinedCriterion := value;
      isUptodate := false;
    }

    /** `run`: see `RunOutcome`; the exception raised, if any. */
    method Run(ev: Evaluation) returns (err: Option<Error>)
      requires provider.Valid()
      modifies this`solidStack, this`time, this`results, this`spotsPerPly, this`interfaceIndices, this`isUptodate
      ensures (State(), err) == RunOutcome(old(State()), old(StackForElement()), ev)
    {
      if !ElementSet(elementId) {
        return Some(RuntimeError);
      }
      solidStack := provider.GetSolidStack(elementId.value);
      if solidStack.None? {
        return Some(RuntimeError);
      }
      var resolved := ResolveTime(time, ev);
      if resolved.Err? {
        return Some(resolved.error);
      }
      time := Some(resolved.value);
      var plies := AnalysisPlyIdsAndThicknesses(solidStack.value);
      if plies.Err? {
        return Some(plies.error);
      }
      var offsets := PlyOffsets(plies.value);
      results := Some(StackResult(elementId.value, plies.value, ev.failures, ev.strains, ev.stresses, offsets));
      spotsPerPly := 0;
      if |plies.value| == 0 {
        return Some(ZeroDivisionError);
      }
      spotsPerPly := |ev.strains.c1| / |plies.value|;
      if spotsPerPly == 3 {
        return Some(RuntimeError);
      } else if spotsPerPly == 2 {
        interfaceIndices := TwoSpotInterfaces();
      } else if spotsPerPly == 1 {
        return Some(RuntimeError);
      } else {
        return Some(RuntimeError);
      }
      isUptodate := true;
      return None;
    }

    /** `_update_and_check_results`: see `UpdateAndCheck`. */
    method UpdateAndCheckResults(ev: Evaluation) returns (r: Result<StackResult>)
      requires provider.Valid()
      modifies this`solidStack, this`time, this`results, this`spotsPerPly, this`interfaceIndices, this`isUptodate
      ensures (State(), r) == UpdateAndCheck(old(State()), old(StackForElement()), ev)
    {
      if !isUptodate || results.None? {
        var err := Run(ev);
        if err.Some? {
          return Err(err.value);
        }
      }
      if results.None? {
        return Err(RuntimeError);
      }
      return Ok(results.value);
    }

    /** The `s13` getter: the results brought up to date, then their s13 stresses. */
    method S13(ev: Evaluation) returns (r: Result<seq<real>>)
      requires provider.Valid()
      modifies this`solidStack, this`time, this`results, this`spotsPerPly, this`interfaceIndices, this`isUptodate
      ensures var (t, res) := UpdateAndCheck(old(State()), old(StackForElement()), ev);
        State() == t && r == (if res.Ok? then Ok(ReadS13(res.value)) else Err(res.error))
    {
      var res := UpdateAndCheckResults(ev);
      if res.Err? {
        return Err(res.error);
      }
      return Ok(ReadS13(res.value));
    }

    /** The `s23` getter as written: the results brought up to date, then their s13 stresses. */
    method S23AsWritten(ev: Evaluation) returns (r: Result<seq<real>>)
      requires provider.Valid()
      modifies this`solidStack, this`time, this`results, this`spotsPerPly, this`interfaceIndices, this`isUptodate
      ensures var (t, res) := UpdateAndCheck(old(State()), old(StackForElement()), ev);
        State() == t && r == (if res.Ok? then Ok(ReadS23AsWritten(res.value)) else Err(res.error))
    {
      var res := UpdateAndCheckResults(ev);
      if res.Err? {
        return Err(res.error);
      }
      return Ok(ReadS23AsWritten(res.value));
    }

    /** The `s23` getter as intended: the results brought up to date, then their s23 stresses. */
    method S23(ev: Evaluation) returns (r: Result<seq<real>>)
      requires provider.Valid()
      modifies this`solidStack, this`time, this`results, this`spotsPerPly, this`interfaceIndices, this`isUptodate
      ensures var (t, res) := UpdateAndCheck(old(State()), old(StackForElement()), ev);
        State() == t && r == (if res.Ok? then Ok(ReadS23(res.value)) else Err(res.error))
    {
      var res := UpdateAndCheckResults(ev);
      if res.Err? {
        return Err(res.error);
      }
      return Ok(ReadS23(res.value));
    }
  }

  /** The server version that introduced sampling points for solids, 10.0 (2025 R2). */
  const SolidSamplingPointVersion: seq<nat> := [10, 0]

  /** The version check as written asks for a key the version table does not have. */
  lemma VersionKeyUnknown(server: seq<nat>)
    ensures "10.0" !in Versions.DpfVersions()
    ensures Versions.VersionOlderThan(server, "10.0") == Err(RuntimeError)
  {
    Versions.KnownKeys();
    assert |"10.0"| == 4;
  }

  /**
   * `SamplingPointSolidStack(...)` as written: `version_older_than(server, "10.0")`
   * raises RuntimeError for the unknown key before any version is compared, so
   * construction fails on every server.
   */
  method NewSolidStackSamplingPointAsWritten(server: seq<nat>, name: string, elementId: int,
                                             combinedCriterion: CombinedCriterion.CombinedFailureCriterion,
                                             provider: SolidStackProvider, time: Option<real>)
    returns (r: Result<SolidStackSamplingPoint>)
    ensures r == Err(RuntimeError)
  {
    VersionKeyUnknown(server);
    var older := Versions.VersionOlderThan(server, "10.0");
    if older.Err? {
      return Err(older.error);
    }
    // The key check above raises on every server: the comparison and the
    // construction that follow it in the source are never reached.
    assert false;
  }

  /**
   * `SamplingPointSolidStack(...)` as intended: RuntimeError exactly on a
   * server older than 10.0; otherwise a sampling point with nothing evaluated yet.
   */
  method NewSolidStackSamplingPoint(server: seq<nat>, name: string, elementId: int,
                                    combinedCriterion: CombinedCriterion.CombinedFailureCriterion,
                                    provider: SolidStackProvider, time: Option<real>)
    returns (r: Result<SolidStackSamplingPoint>)
    ensures r.Err? <==> Versions.Older(server, SolidSamplingPointVersion)
    ensures r.Err? ==> r.error == RuntimeError
    ensures r.Ok? ==> fresh(r.value) && r.value.name == name && r.value.elementId == Some(elementId)
    ensures r.Ok? ==> r.value.provider == provider && r.value.time == time && !r.value.isUptodate
    ensures r.Ok? ==> r.value.results.None? && r.value.spotsPerPly == 0 && r.value.interfaceIndices == map[]
  {
    if Versions.Older(server, SolidSamplingPointVersion) {
      return Err(RuntimeError);
    }
    var p := new SolidStackSamplingPoint(name, elementId, combinedCriterion, provider, time);
    return Ok(p);
  }
}
