// Through-the-thickness results of a stack of solid elements, level by level: a level
// holding one layered element is read ply by ply and spot by spot, any other level
// (drop-off and cut-off elements, which are homogeneous) gives one value repeated for
// every ply and spot.
module SolidStackResults {
  import opened Common
  import opened Layout
  import opened SamplingPointTypes
  import opened FailureModes
  import opened SolidStackInfo

  /** `_get_element_info`: the layout of an element, RuntimeError when the provider has none. */
  function GetElementInfo(infos: map<int, ElementInfo>, e: int): (r: Result<ElementInfo>)
    ensures r.Ok? <==> e in infos
    ensures r.Ok? ==> r.value == infos[e]
    ensures r.Err? ==> r.error == RuntimeError
  {
    if e in infos then Ok(infos[e]) else Err(RuntimeError)
  }

  /**
   * The ply-count check of a homogeneous level over its first `k` elements: the first
   * element without a ply list raises KeyError, the first with another count than `n`
   * RuntimeError.
   */
  function PlyCountMismatch(stack: SolidStack, level: seq<int>, n: nat, k: nat): (r: Option<Error>)
    requires k <= |level|
    ensures r.None? <==>
      forall i :: 0 <= i < k ==>
        level[i] in stack.elementWiseAnalysisPlies && |stack.elementWiseAnalysisPlies[level[i]]| == n
    ensures r.Some? ==> r.value == KeyError || r.value == RuntimeError
  {
    if k == 0 then None
    else
      match PlyCountMismatch(stack, level, n, k - 1)
      case Some(err) => Some(err)
      case None =>
        var e := level[k - 1];
        if e !in stack.elementWiseAnalysisPlies then Some(KeyError)
        else if |stack.elementWiseAnalysisPlies[e]| != n then Some(RuntimeError)
        else None
  }

  lemma {:induction false} PlyCountMismatchFail(stack: SolidStack, level: seq<int>, n: nat, i: nat, k: nat)
    requires i <= k <= |level| && PlyCountMismatch(stack, level, n, i).Some?
    ensures PlyCountMismatch(stack, level, n, k) == PlyCountMismatch(stack, level, n, i)
    decreases k - i
  {
    if i < k {
      PlyCountMismatchFail(stack, level, n, i, k - 1);
    }
  }

  /** The largest inverse reserve factor of an element's data, read at numpy's `argmax`. */
  function RowMax(irfs: seq<real>): real
    requires |irfs| > 0
  {
    irfs[FirstArgMax(irfs)]
  }

  /** Every element of the level up to `k` has both fields and some data. */
  predicate HasData(level: seq<int>, irfField: map<int, seq<real>>, modeField: map<int, seq<real>>, k: nat)
    requires k <= |level|
  {
    forall i :: 0 <= i < k ==> level[i] in irfField && level[i] in modeField && |irfField[level[i]]| > 0
  }

  /**
   * The running maximum over the first `k` elements of a homogeneous level: it starts at
   * -1 with no mode, and an element's largest value replaces it only when strictly larger,
   * taking the mode at the same row. An element missing from a field, or without data,
   * raises ValueError; a mode list shorter than the maximum's row IndexError.
   */
  function LevelMax(level: seq<int>, irfField: map<int, seq<real>>, modeField: map<int, seq<real>>, k: nat): (r: Result<(real, Option<int>)>)
    requires k <= |level|
    ensures r.Err? ==> r.error == ValueError || r.error == IndexError
  {
    if k == 0 then Ok((-1.0, None))
    else
      match LevelMax(level, irfField, modeField, k - 1)
      case Err(err) => Err(err)
      case Ok(below) =>
        var e := level[k - 1];
        if e !in irfField || e !in modeField then Err(ValueError)
        else
          var irfs := irfField[e];
          var modes := modeField[e];
          if irfs == [] then Err(ValueError)
          else
            var c := FirstArgMax(irfs);
            if irfs[c] > below.0 then
              if c >= |modes| then Err(IndexError)
              else Ok((irfs[c], Some(Trunc(modes[c]))))
            else Ok(below)
  }

  /**
   * The running maximum is the largest value of the elements read (or -1 when none
   * exceeds it), and its mode is that of the first element reaching it, at that element's
   * first maximum.
   */
  lemma {:induction false} LevelMaxIsFirstMax(level: seq<int>, irfField: map<int, seq<real>>, modeField: map<int, seq<real>>, k: nat)
    requires k <= |level| && LevelMax(level, irfField, modeField, k).Ok?
    ensures HasData(level, irfField, modeField, k)
    ensures
      var (m, mode) := LevelMax(level, irfField, modeField, k).value;
      m >= -1.0 && (forall i :: 0 <= i < k ==> RowMax(irfField[level[i]]) <= m) &&
      (mode.None? ==> m == -1.0) &&
      (mode.Some? ==>
        exists i :: 0 <= i < k && RowMax(irfField[level[i]]) == m &&
          (forall j :: 0 <= j < i ==> RowMax(irfField[level[j]]) < m) &&
          FirstArgMax(irfField[level[i]]) < |modeField[level[i]]| &&
          mode.value == Trunc(modeField[level[i]][FirstArgMax(irfField[level[i]])]))
  {
    if k > 0 {
      LevelMaxIsFirstMax(level, irfField, modeField, k - 1);
      var (m, mode) := LevelMax(level, irfField, modeField, k).value;
      var (m0, mode0) := LevelMax(level, irfField, modeField, k - 1).value;
      if m != m0 || mode != mode0 {
        assert RowMax(irfField[level[k - 1]]) == m;
      }
    }
  }

  lemma {:induction false} LevelMaxFail(level: seq<int>, irfField: map<int, seq<real>>, modeField: map<int, seq<real>>, i: nat, k: nat)
    requires i <= k <= |level| && LevelMax(level, irfField, modeField, i).Err?
    ensures LevelMax(level, irfField, modeField, k) == LevelMax(level, irfField, modeField, i)
    decreases k - i
  {
    if i < k {
      LevelMaxFail(level, irfField, modeField, i, k - 1);
    }
  }

  /** `n` copies of `x`: Python's `n * [x]`. */
  function Repeat<T>(x: T, n: nat): (r: seq<T>)
    ensures |r| == n && forall i :: 0 <= i < n ==> r[i] == x
  {
    seq(n, _ => x)
  }

  /** The failure a maximum and its mode describe; no mode or an unknown code raise ValueError. */
  function MaxFailure(irf: real, mode: Option<int>): (r: Result<FailureResult>)
    ensures r.Ok? <==> mode.Some? && FailureModeName(mode.value).Some?
    ensures r.Ok? ==>
      r.value.mode == FailureModeName(mode.value).value && r.value.inverseReserveFactor == irf &&
      r.value.safetyFactor == IrfToRf(irf) && r.value.safetyMargin == IrfToMos(irf)
    ensures r.Err? ==> r.error == ValueError
  {
    if mode.None? || FailureModeName(mode.value).None? then Err(ValueError)
    else Ok(FailureResult(FailureModeName(mode.value).value, irf, IrfToRf(irf), IrfToMos(irf)))
  }

  /**
   * A homogeneous level: every element must have as many plies as the first (an empty
   * level raises IndexError), and the level's strict maximum failure is repeated for both
   * spots of every ply.
   */
  function HomogeneousFailures(stack: SolidStack, level: seq<int>, irfField: map<int, seq<real>>,
                               modeField: map<int, seq<real>>): (r: Result<seq<FailureResult>>)
    ensures r.Ok? ==>
      level != [] && level[0] in stack.elementWiseAnalysisPlies &&
      |r.value| == 2 * |stack.elementWiseAnalysisPlies[level[0]]|
  {
    if level == [] then Err(IndexError)
    else if level[0] !in stack.elementWiseAnalysisPlies then Err(KeyError)
    else
      var n := |stack.elementWiseAnalysisPlies[level[0]]|;
      match PlyCountMismatch(stack, level, n, |level|)
      case Some(err) => Err(err)
      case None =>
        match LevelMax(level, irfField, modeField, |level|)
        case Err(err) => Err(err)
        case Ok((irf, mode)) =>
          match MaxFailure(irf, mode)
          case Err(err) => Err(err)
          case Ok(f) => Ok(Repeat(f, 2 * n))
  }

  /**
   * A homogeneous level reports, for every ply and spot, the failure of its running
   * maximum, and only when all its elements have as many plies as the first.
   */
  lemma HomogeneousFailuresAreMax(stack: SolidStack, level: seq<int>, irfField: map<int, seq<real>>,
                                  modeField: map<int, seq<real>>)
    requires HomogeneousFailures(stack, level, irfField, modeField).Ok?
    ensures
      var r := HomogeneousFailures(stack, level, irfField, modeField).value;
      level != [] && level[0] in stack.elementWiseAnalysisPlies &&
      PlyCountMismatch(stack, level, |stack.elementWiseAnalysisPlies[level[0]]|, |level|).None? &&
      LevelMax(level, irfField, modeField, |level|).Ok? &&
      var (irf, mode) := LevelMax(level, irfField, modeField, |level|).value;
      MaxFailure(irf, mode).Ok? && forall i :: 0 <= i < |r| ==> r[i] == MaxFailure(irf, mode).value
  {
  }

  /**
   * A level made of one layered element: its data (an element missing from a field
   * raises ValueError), its plies (KeyError), and the failure at each ply and spot.
   */
  function LayeredFailures(stack: SolidStack, e: int, info: ElementInfo,
                           irfField: map<int, seq<real>>, modeField: map<int, seq<real>>): Result<seq<FailureResult>>
  {
    if e !in irfField || e !in modeField then Err(ValueError)
    else if e !in stack.elementWiseAnalysisPlies then Err(KeyError)
    else ElementFailures(Some(info), irfField[e], modeField[e], |stack.elementWiseAnalysisPlies[e]|)
  }

  /**
   * The failures of one level: a single layered element gives the failure at the first
   * maximum of each ply and spot, anything else the homogeneous maximum. The layout is
   * only asked for when the level holds a single element.
   */
  function LevelFailures(stack: SolidStack, level: seq<int>, infos: map<int, ElementInfo>,
                         irfField: map<int, seq<real>>, modeField: map<int, seq<real>>): Result<seq<FailureResult>>
  {
    if |level| == 1 then
      var e := level[0];
      match GetElementInfo(infos, e)
      case Err(err) => Err(err)
      case Ok(info) =>
        if info.isLayered then LayeredFailures(stack, e, info, irfField, modeField)
        else HomogeneousFailures(stack, level, irfField, modeField)
    else HomogeneousFailures(stack, level, irfField, modeField)
  }

  /** The number of plies a level reports: those of its first element. */
  function LevelPlies(stack: SolidStack, level: seq<int>): nat
  {
    if level != [] && level[0] in stack.elementWiseAnalysisPlies then |stack.elementWiseAnalysisPlies[level[0]]| else 0
  }

  /** Two results per ply, whichever path the level takes. */
  lemma LevelFailuresLength(stack: SolidStack, level: seq<int>, infos: map<int, ElementInfo>,
                            irfField: map<int, seq<real>>, modeField: map<int, seq<real>>)
    requires LevelFailures(stack, level, infos, irfField, modeField).Ok?
    ensures |LevelFailures(stack, level, infos, irfField, modeField).value| == 2 * LevelPlies(stack, level)
  {
    if |level| == 1 && level[0] in infos && infos[level[0]].isLayered {
      var e := level[0];
      PlyWiseLength(FailureReader(Some(infos[e]), irfField[e], modeField[e]), |stack.elementWiseAnalysisPlies[e]|);
    }
  }

  /** The failures of level `i` of the stack; there are none past the top. */
  function LevelReader(stack: SolidStack, levels: seq<seq<int>>, infos: map<int, ElementInfo>,
                       irfField: map<int, seq<real>>, modeField: map<int, seq<real>>): nat -> Result<seq<FailureResult>>
  {
    (i: nat) => if i < |levels| then LevelFailures(stack, levels[i], infos, irfField, modeField) else Ok([])
  }

  /** The failures of the first `n` levels, bottom to top. */
  function StackFailures(stack: SolidStack, levels: seq<seq<int>>, infos: map<int, ElementInfo>,
                         irfField: map<int, seq<real>>, modeField: map<int, seq<real>>, n: nat): Result<seq<FailureResult>>
    requires n <= |levels|
  {
    Blocks(LevelReader(stack, levels, infos, irfField, modeField), n)
  }

  /** One more level appends its failures, or fails the stack with its error. */
  lemma StackFailuresStep(stack: SolidStack, levels: seq<seq<int>>, infos: map<int, ElementInfo>,
                          irfField: map<int, seq<real>>, modeField: map<int, seq<real>>, i: nat,
                          below: seq<FailureResult>, block: Result<seq<FailureResult>>)
    requires i < |levels| && StackFailures(stack, levels, infos, irfField, modeField, i) == Ok(below)
    requires block == LevelFailures(stack, levels[i], infos, irfField, modeField)
    ensures StackFailures(stack, levels, infos, irfField, modeField, i + 1) ==
      if block.Err? then Err(block.error) else Ok(below + block.value)
  {
    BlocksStep(LevelReader(stack, levels, infos, irfField, modeField), i, below);
  }

  /** Once a level fails, the whole stack fails with its error. */
  lemma StackFailuresFail(stack: SolidStack, levels: seq<seq<int>>, infos: map<int, ElementInfo>,
                          irfField: map<int, seq<real>>, modeField: map<int, seq<real>>, i: nat)
    requires i <= |levels| && StackFailures(stack, levels, infos, irfField, modeField, i).Err?
    ensures StackFailures(stack, levels, infos, irfField, modeField, |levels|) == StackFailures(stack, levels, infos, irfField, modeField, i)
  {
    BlocksFail(LevelReader(stack, levels, infos, irfField, modeField), i, |levels|);
  }

  /** The total number of plies the first `n` levels report. */
  function TotalPlies(stack: SolidStack, levels: seq<seq<int>>, n: nat): nat
    requires n <= |levels|
  {
    if n == 0 then 0 else TotalPlies(stack, levels, n - 1) + LevelPlies(stack, levels[n - 1])
  }

  /** The output holds two failures per ply of the stack. */
  lemma {:induction false} StackFailuresLength(stack: SolidStack, levels: seq<seq<int>>, infos: map<int, ElementInfo>,
                                               irfField: map<int, seq<real>>, modeField: map<int, seq<real>>, n: nat)
    requires n <= |levels| && StackFailures(stack, levels, infos, irfField, modeField, n).Ok?
    ensures |StackFailures(stack, levels, infos, irfField, modeField, n).value| == 2 * TotalPlies(stack, levels, n)
  {
    if n > 0 {
      StackFailuresLength(stack, levels, infos, irfField, modeField, n - 1);
      LevelFailuresLength(stack, levels[n - 1], infos, irfField, modeField);
    }
  }

  /** The loops of a homogeneous level: the ply-count check, then the running maximum. */
  method CollectHomogeneousFailures(stack: SolidStack, level: seq<int>, irfField: map<int, seq<real>>,
                                    modeField: map<int, seq<real>>) returns (r: Result<seq<FailureResult>>)
    ensures r == HomogeneousFailures(stack, level, irfField, modeField)
  {
    if level == [] {
      return Err(IndexError);
    }
    if level[0] !in stack.elementWiseAnalysisPlies {
      return Err(KeyError);
    }
    var numPlies := |stack.elementWiseAnalysisPlies[level[0]]|;
    var mismatch := CheckPlyCounts(stack, level, numPlies);
    if mismatch.Some? {
      return Err(mismatch.value);
    }
    var max := CollectLevelMax(level, irfField, modeField);
    if max.Err? {
      return Err(max.error);
    }
    var f := MaxFailure(max.value.0, max.value.1);
    if f.Err? {
      return Err(f.error);
    }
    return Ok(Repeat(f.value, 2 * numPlies));
  }

  /** The first loop of a homogeneous level: every element must have `numPlies` plies. */
  method CheckPlyCounts(stack: SolidStack, level: seq<int>, numPlies: nat) returns (r: Option<Error>)
    ensures r == PlyCountMismatch(stack, level, numPlies, |level|)
  {
    var k := 0;
    while k < |level|
      invariant 0 <= k <= |level|
      invariant PlyCountMismatch(stack, level, numPlies, k).None?
    {
      var e := level[k];
      if e !in stack.elementWiseAnalysisPlies {
        PlyCountMismatchFail(stack, level, numPlies, k + 1, |level|);
        return Some(KeyError);
      }
      if numPlies != |stack.elementWiseAnalysisPlies[e]| {
        PlyCountMismatchFail(stack, level, numPlies, k + 1, |level|);
        return Some(RuntimeError);
      }
      k := k + 1;
    }
    return None;
  }

  /** The second loop of a homogeneous level: the running maximum IRF and its failure mode. */
  method CollectLevelMax(level: seq<int>, irfField: map<int, seq<real>>, modeField: map<int, seq<real>>)
    returns (r: Result<(real, Option<int>)>)
    ensures r == LevelMax(level, irfField, modeField, |level|)
  {
    var maxIrf := -1.0;
    var maxFailureMode: Option<int> := None;
    var k := 0;
    while k < |level|
      invariant 0 <= k <= |level|
      invariant LevelMax(level, irfField, modeField, k) == Ok((maxIrf, maxFailureMode))
    {
      var e := level[k];
      if e !in irfField || e !in modeField {
        LevelMaxFail(level, irfField, modeField, k + 1, |level|);
        return Err(ValueError);
      }
      var irfs := irfField[e];
      var modes := modeField[e];
      if irfs == [] {
        LevelMaxFail(level, irfField, modeField, k + 1, |level|);
        return Err(ValueError);
      }
      var indexOfMax := FirstArgMax(irfs);
      var irf := irfs[indexOfMax];
      if irf > maxIrf {
        if indexOfMax >= |modes| {
          LevelMaxFail(level, irfField, modeField, k + 1, |level|);
          return Err(IndexError);
        }
        maxIrf := irf;
        maxFailureMode := Some(Trunc(modes[indexOfMax]));
      }
      k := k + 1;
    }
    return Ok((maxIrf, maxFailureMode));
  }

  /** The body of the level loop: the layered path for a single layered element, else the homogeneous one. */
  method CollectLevelFailures(stack: SolidStack, level: seq<int>, infos: map<int, ElementInfo>,
                              irfField: map<int, seq<real>>, modeField: map<int, seq<real>>)
    returns (block: Result<seq<FailureResult>>)
    ensures block == LevelFailures(stack, level, infos, irfField, modeField)
  {
    var isLayered := false;
    if |level| == 1 {
      var e := level[0];
      var info := GetElementInfo(infos, e);
      if info.Err? {
        return Err(info.error);
      }
      isLayered := info.value.isLayered;
      if isLayered {
        if e !in irfField || e !in modeField {
          return Err(ValueError);
        }
        if e !in stack.elementWiseAnalysisPlies {
          return Err(KeyError);
        }
        block := CollectElementFailures(Some(info.value), irfField[e], modeField[e], |stack.elementWiseAnalysisPlies[e]|);
      }
    }
    if !isLayered {
      block := CollectHomogeneousFailures(stack, level, irfField, modeField);
    }
  }


  /**
   * `get_through_the_thickness_failure_results`: the failures of every level of the
   * stack, bottom to top. The levels are the stack's element ids per level, in order.
   */
  method GetThroughTheThicknessFailureResults(stack: SolidStack, levels: seq<seq<int>>, infos: map<int, ElementInfo>,
                                              irfField: map<int, seq<real>>, modeField: map<int, seq<real>>)
    returns (r: Result<seq<FailureResult>>)
    ensures r == StackFailures(stack, levels, infos, irfField, modeField, |levels|)
  {
    var results: seq<FailureResult> := [];
    var i := 0;
    while i < |levels|
      invariant 0 <= i <= |levels|
      invariant StackFailures(stack, levels, infos, irfField, modeField, i) == Ok(results)
    {
      var block := CollectLevelFailures(stack, levels[i], infos, irfField, modeField);
      StackFailuresStep(stack, levels, infos, irfField, modeField, i, results, block);
      if block.Err? {
        StackFailuresFail(stack, levels, infos, irfField, modeField, i + 1);
        return Err(block.error);
      }
      results := results + block.value;
      i := i + 1;
    }
    return Ok(results);
  }

  /** numpy's `average` of a list of floats: NaN when the list is empty or holds a NaN. */
  function FloatMean(xs: seq<Float>): (r: Float)
    ensures r.NaN? <==> xs == [] || exists i :: 0 <= i < |xs| && xs[i].NaN?
  {
    if xs == [] || exists i :: 0 <= i < |xs| && xs[i].NaN? then NaN
    else
      var m := Mean(seq(|xs|, i requires 0 <= i < |xs| => xs[i].v));
      m
  }

  /** Numbers between two bounds average to a number between the same bounds. */
  lemma FloatMeanWithin(xs: seq<Float>, lo: real, hi: real)
    requires forall i :: 0 <= i < |xs| ==> xs[i].Num? && lo <= xs[i].v <= hi
    requires xs != []
    ensures FloatMean(xs).Num? && lo <= FloatMean(xs).v <= hi
  {
    var vs := seq(|xs|, i requires 0 <= i < |xs| => xs[i].v);
    MeanWithin(vs, lo, hi);
  }

  /**
   * The per-element averages of a homogeneous level over its first `k` elements, one
   * average per requested component; an element missing from the field raises
   * ValueError, a component past the width IndexError.
   */
  function ElementMeans(level: seq<int>, field: map<int, seq<seq<real>>>, width: nat, columns: seq<int>, k: nat)
    : (r: Result<seq<seq<Float>>>)
    requires k <= |level| && FieldShaped(field, width)
    ensures r.Ok? ==> |r.value| == k && forall i :: 0 <= i < k ==> |r.value[i]| == |columns|
  {
    if k == 0 then Ok([])
    else
      match ElementMeans(level, field, width, columns, k - 1)
      case Err(e) => Err(e)
      case Ok(below) =>
        var e := level[k - 1];
        if e !in field then Err(ValueError)
        else
          match ColumnMeans(field[e], width, columns)
          case Err(err) => Err(err)
          case Ok(means) => Ok(below + [means])
  }

  /** Element `i`'s entry holds the averages of its own data's components. */
  lemma {:induction false} ElementMeansAt(level: seq<int>, field: map<int, seq<seq<real>>>, width: nat, columns: seq<int>,
                                          k: nat, i: int)
    requires k <= |level| && FieldShaped(field, width)
    requires ElementMeans(level, field, width, columns, k).Ok? && 0 <= i < k
    ensures level[i] in field && Shaped(field[level[i]], width)
    ensures ColumnMeans(field[level[i]], width, columns) == Ok(ElementMeans(level, field, width, columns, k).value[i])
  {
    if i < k - 1 {
      ElementMeansAt(level, field, width, columns, k - 1, i);
    }
  }

  lemma {:induction false} ElementMeansFail(level: seq<int>, field: map<int, seq<seq<real>>>, width: nat, columns: seq<int>,
                                            i: nat, k: nat)
    requires i <= k <= |level| && FieldShaped(field, width)
    requires ElementMeans(level, field, width, columns, i).Err?
    ensures ElementMeans(level, field, width, columns, k) == ElementMeans(level, field, width, columns, i)
    decreases k - i
  {
    if i < k {
      ElementMeansFail(level, field, width, columns, i, k - 1);
    }
  }

  /** The level's value of each component: the average of its elements' averages. */
  function LevelMeans(means: seq<seq<Float>>, k: nat): (r: seq<Float>)
    requires forall i :: 0 <= i < |means| ==> |means[i]| == k
    ensures |r| == k
  {
    var byComponent := Transpose(means, k);
    seq(k, j requires 0 <= j < k => FloatMean(byComponent[j]))
  }

  /**
   * A homogeneous level: every element must have as many plies as the first (an empty
   * level raises IndexError), and the average of its elements' averages is repeated for
   * both spots of every ply.
   */
  function HomogeneousAverages(stack: SolidStack, level: seq<int>, field: map<int, seq<seq<real>>>, width: nat,
                               columns: seq<int>): (r: Result<seq<seq<Float>>>)
    requires FieldShaped(field, width)
  {
    if level == [] then Err(IndexError)
    else if level[0] !in stack.elementWiseAnalysisPlies then Err(KeyError)
    else
      var n := |stack.elementWiseAnalysisPlies[level[0]]|;
      match PlyCountMismatch(stack, level, n, |level|)
      case Some(err) => Err(err)
      case None =>
        match ElementMeans(level, field, width, columns, |level|)
        case Err(err) => Err(err)
        case Ok(means) => Ok(Repeat(LevelMeans(means, |columns|), 2 * n))
  }

  /**
   * The averages a homogeneous level reports are the same at every ply and spot, two per
   * ply of its first element, and component `j` of each is the average over the level's
   * elements of their own averages of that component.
   */
  lemma HomogeneousAveragesAreLevelMeans(stack: SolidStack, level: seq<int>, field: map<int, seq<seq<real>>>, width: nat,
                                         columns: seq<int>, i: int, j: int)
    requires FieldShaped(field, width)
    requires HomogeneousAverages(stack, level, field, width, columns).Ok?
    requires 0 <= i < |HomogeneousAverages(stack, level, field, width, columns).value| && 0 <= j < |columns|
    ensures level != [] && level[0] in stack.elementWiseAnalysisPlies
    ensures |HomogeneousAverages(stack, level, field, width, columns).value| == 2 * |stack.elementWiseAnalysisPlies[level[0]]|
    ensures ElementMeans(level, field, width, columns, |level|).Ok?
    ensures HomogeneousAverages(stack, level, field, width, columns).value[i][j] ==
      FloatMean(seq(|level|, k requires 0 <= k < |level| => ElementMeans(level, field, width, columns, |level|).value[k][j]))
  {
    var means := ElementMeans(level, field, width, columns, |level|).value;
    assert Transpose(means, |columns|)[j] == seq(|level|, k requires 0 <= k < |level| => means[k][j]);
  }

  /** Every value of every row lies between two bounds. */
  predicate RowsWithin(rows: seq<seq<real>>, width: nat, lo: real, hi: real)
  {
    forall r, k :: 0 <= r < |rows| && 0 <= k < width && k < |rows[r]| ==> lo <= rows[r][k] <= hi
  }

  /** Every value of every element of the field lies between two bounds. */
  predicate FieldWithin(field: map<int, seq<seq<real>>>, width: nat, lo: real, hi: real)
  {
    forall e :: e in field ==> RowsWithin(field[e], width, lo, hi)
  }

  /** The average of one component of bounded data is NaN or between the same bounds. */
  lemma ColumnMeanWithin(rows: seq<seq<real>>, width: nat, c: int, lo: real, hi: real)
    requires Shaped(rows, width) && RowsWithin(rows, width, lo, hi)
    requires Column(rows, width, c).Ok?
    ensures Mean(Column(rows, width, c).value).Num? ==> lo <= Mean(Column(rows, width, c).value).v <= hi
  {
    var column := Column(rows, width, c).value;
    if column != [] {
      var k := PyIndex(width, c).value;
      assert forall r :: 0 <= r < |column| ==> column[r] == rows[r][k];
      MeanWithin(column, lo, hi);
    }
  }

  lemma FieldRows(field: map<int, seq<seq<real>>>, width: nat, lo: real, hi: real, e: int)
    requires FieldShaped(field, width) && FieldWithin(field, width, lo, hi) && e in field
    ensures Shaped(field[e], width) && RowsWithin(field[e], width, lo, hi)
  {
  }

  /** An element's average of bounded data is NaN or between the same bounds. */
  lemma ElementMeanWithin(level: seq<int>, field: map<int, seq<seq<real>>>, width: nat, columns: seq<int>,
                          lo: real, hi: real, k: int, j: int)
    requires FieldShaped(field, width) && FieldWithin(field, width, lo, hi)
    requires ElementMeans(level, field, width, columns, |level|).Ok? && 0 <= k < |level| && 0 <= j < |columns|
    ensures ElementMeans(level, field, width, columns, |level|).value[k][j].Num? ==>
      lo <= ElementMeans(level, field, width, columns, |level|).value[k][j].v <= hi
  {
    ElementMeansAt(level, field, width, columns, |level|, k);
    var rows := field[level[k]];
    FieldRows(field, width, lo, hi, level[k]);
    var means := ColumnMeans(rows, width, columns);
    assert means.value[j] == Mean(Column(rows, width, columns[j]).value);
    ColumnMeanWithin(rows, width, columns[j], lo, hi);
  }

  /** Data between two bounds gives a homogeneous level NaN or values between the same bounds. */
  lemma HomogeneousAveragesWithin(stack: SolidStack, level: seq<int>, field: map<int, seq<seq<real>>>, width: nat,
                                  columns: seq<int>, lo: real, hi: real, i: int, j: int)
    requires FieldShaped(field, width) && FieldWithin(field, width, lo, hi)
    requires HomogeneousAverages(stack, level, field, width, columns).Ok?
    requires 0 <= i < |HomogeneousAverages(stack, level, field, width, columns).value| && 0 <= j < |columns|
    ensures HomogeneousAverages(stack, level, field, width, columns).value[i][j].Num? ==>
      lo <= HomogeneousAverages(stack, level, field, width, columns).value[i][j].v <= hi
  {
    HomogeneousAveragesAreLevelMeans(stack, level, field, width, columns, i, j);
    var means := ElementMeans(level, field, width, columns, |level|).value;
    var xs := seq(|level|, k requires 0 <= k < |level| => means[k][j]);
    if FloatMean(xs).Num? {
      forall k | 0 <= k < |xs|
        ensures xs[k].Num? && lo <= xs[k].v <= hi
      {
        ElementMeanWithin(level, field, width, columns, lo, hi, k, j);
      }
      FloatMeanWithin(xs, lo, hi);
    }
  }

  /**
   * A level made of one layered element: its data (an element missing from the field
   * raises ValueError), its plies (KeyError), and the component averages at each ply and spot.
   */
  function LayeredAverages(stack: SolidStack, e: int, info: ElementInfo, field: map<int, seq<seq<real>>>, width: nat,
                           columns: seq<int>): Result<seq<seq<Float>>>
    requires FieldShaped(field, width)
  {
    if e !in field then Err(ValueError)
    else if e !in stack.elementWiseAnalysisPlies then Err(KeyError)
    else PlyWise(AverageReader(Some(info), field[e], width, columns), |stack.elementWiseAnalysisPlies[e]|)
  }

  /** The averages of one level: the layered path for a single layered element, else the homogeneous one. */
  function LevelAverages(stack: SolidStack, level: seq<int>, infos: map<int, ElementInfo>, field: map<int, seq<seq<real>>>,
                         width: nat, columns: seq<int>): Result<seq<seq<Float>>>
    requires FieldShaped(field, width)
  {
    if |level| == 1 then
      var e := level[0];
      match GetElementInfo(infos, e)
      case Err(err) => Err(err)
      case Ok(info) =>
        if info.isLayered then LayeredAverages(stack, e, info, field, width, columns)
        else HomogeneousAverages(stack, level, field, width, columns)
    else HomogeneousAverages(stack, level, field, width, columns)
  }

  /** Two entries per ply, each with one average per component, whichever path the level takes. */
  lemma LevelAveragesShape(stack: SolidStack, level: seq<int>, infos: map<int, ElementInfo>, field: map<int, seq<seq<real>>>,
                           width: nat, columns: seq<int>)
    requires FieldShaped(field, width) && LevelAverages(stack, level, infos, field, width, columns).Ok?
    ensures |LevelAverages(stack, level, infos, field, width, columns).value| == 2 * LevelPlies(stack, level)
    ensures forall i :: 0 <= i < 2 * LevelPlies(stack, level) ==>
      |LevelAverages(stack, level, infos, field, width, columns).value[i]| == |columns|
  {
    if |level| == 1 && level[0] in infos && infos[level[0]].isLayered {
      var e := level[0];
      ElementAveragesWidth(Some(infos[e]), field[e], width, columns, |stack.elementWiseAnalysisPlies[e]|);
    }
  }

  /** The averages of level `i` of the stack; there are none past the top. */
  function AveragesReader(stack: SolidStack, levels: seq<seq<int>>, infos: map<int, ElementInfo>,
                          field: map<int, seq<seq<real>>>, width: nat, columns: seq<int>): nat -> Result<seq<seq<Float>>>
    requires FieldShaped(field, width)
  {
    (i: nat) => if i < |levels| then LevelAverages(stack, levels[i], infos, field, width, columns) else Ok([])
  }

  /** The per-spot averages of the first `n` levels, bottom to top. */
  function StackAverages(stack: SolidStack, levels: seq<seq<int>>, infos: map<int, ElementInfo>,
                         field: map<int, seq<seq<real>>>, width: nat, columns: seq<int>, n: nat): Result<seq<seq<Float>>>
    requires n <= |levels| && FieldShaped(field, width)
  {
    Blocks(AveragesReader(stack, levels, infos, field, width, columns), n)
  }

  /** One more level appends its averages, or fails the stack with its error. */
  lemma StackAveragesStep(stack: SolidStack, levels: seq<seq<int>>, infos: map<int, ElementInfo>,
                          field: map<int, seq<seq<real>>>, width: nat, columns: seq<int>, i: nat,
                          below: seq<seq<Float>>, block: Result<seq<seq<Float>>>)
    requires i < |levels| && FieldShaped(field, width)
    requires StackAverages(stack, levels, infos, field, width, columns, i) == Ok(below)
    requires block == LevelAverages(stack, levels[i], infos, field, width, columns)
    ensures StackAverages(stack, levels, infos, field, width, columns, i + 1) ==
      if block.Err? then Err(block.error) else Ok(below + block.value)
  {
    BlocksStep(AveragesReader(stack, levels, infos, field, width, columns), i, below);
  }

  /** Once a level fails, the whole stack fails with its error. */
  lemma StackAveragesFail(stack: SolidStack, levels: seq<seq<int>>, infos: map<int, ElementInfo>,
                          field: map<int, seq<seq<real>>>, width: nat, columns: seq<int>, i: nat)
    requires i <= |levels| && FieldShaped(field, width)
    requires StackAverages(stack, levels, infos, field, width, columns, i).Err?
    ensures StackAverages(stack, levels, infos, field, width, columns, |levels|) ==
      StackAverages(stack, levels, infos, field, width, columns, i)
  {
    BlocksFail(AveragesReader(stack, levels, infos, field, width, columns), i, |levels|);
  }

  /** Two entries per ply of the stack, each with one average per component. */
  lemma {:induction false} StackAveragesShape(stack: SolidStack, levels: seq<seq<int>>, infos: map<int, ElementInfo>,
                                              field: map<int, seq<seq<real>>>, width: nat, columns: seq<int>, n: nat)
    requires n <= |levels| && FieldShaped(field, width)
    requires StackAverages(stack, levels, infos, field, width, columns, n).Ok?
    ensures |StackAverages(stack, levels, infos, field, width, columns, n).value| == 2 * TotalPlies(stack, levels, n)
    ensures forall i :: 0 <= i < 2 * TotalPlies(stack, levels, n) ==>
      |StackAverages(stack, levels, infos, field, width, columns, n).value[i]| == |columns|
  {
    if n > 0 {
      StackAveragesShape(stack, levels, infos, field, width, columns, n - 1);
      StackAveragesStep(stack, levels, infos, field, width, columns, n - 1,
                        StackAverages(stack, levels, infos, field, width, columns, n - 1).value,
                        LevelAverages(stack, levels[n - 1], infos, field, width, columns));
      LevelAveragesShape(stack, levels[n - 1], infos, field, width, columns);
    }
  }

  /** The tensor component each name stands for, in order. */
  function Columns(componentNames: seq<string>, columnOf: string -> int): (r: seq<int>)
    ensures |r| == |componentNames|
  {
    seq(|componentNames|, j requires 0 <= j < |componentNames| => columnOf(componentNames[j]))
  }

  /**
   * `get_through_the_thickness_results`: for each named component, its average at the
   * bottom and top of every ply of every level of the stack. `columnOf` is the tensor
   * component a name stands for. A name given at several positions collects the
   * entries of all of them in its one list. In a homogeneous level such a name's
   * element averages are each listed once per position; their mean is the mean of
   * the averages listed once, which is what the level means compute.
   */
  function ThroughTheThicknessResults(stack: SolidStack, levels: seq<seq<int>>, infos: map<int, ElementInfo>,
                                      field: map<int, seq<seq<real>>>, width: nat, componentNames: seq<string>,
                                      columnOf: string -> int): (r: Result<seq<(string, seq<Float>)>>)
    requires FieldShaped(field, width)
  {
    var columns := Columns(componentNames, columnOf);
    match StackAverages(stack, levels, infos, field, width, columns, |levels|)
    case Err(e) => Err(e)
    case Ok(entries) =>
      StackAveragesShape(stack, levels, infos, field, width, columns, |levels|);
      Ok(ByComponentName(componentNames, entries))
  }

  /**
   * One list per distinct component name, in first-seen order, holding two averages
   * per ply of the stack for each position of the name; with distinct names, one list
   * per name, in order.
   */
  lemma ThroughTheThicknessResultsShape(stack: SolidStack, levels: seq<seq<int>>, infos: map<int, ElementInfo>,
                                        field: map<int, seq<seq<real>>>, width: nat, componentNames: seq<string>,
                                        columnOf: string -> int)
    requires FieldShaped(field, width)
    requires ThroughTheThicknessResults(stack, levels, infos, field, width, componentNames, columnOf).Ok?
    ensures var r := ThroughTheThicknessResults(stack, levels, infos, field, width, componentNames, columnOf).value;
      |r| == |FirstSeen(componentNames)| &&
      forall i :: 0 <= i < |r| ==>
        r[i].0 == FirstSeen(componentNames)[i] &&
        |r[i].1| == (2 * TotalPlies(stack, levels, |levels|)) * Occurrences(r[i].0, componentNames)
    ensures (forall i, j :: 0 <= i < j < |componentNames| ==> componentNames[i] != componentNames[j]) ==>
      var r := ThroughTheThicknessResults(stack, levels, infos, field, width, componentNames, columnOf).value;
      |r| == |componentNames| &&
      forall j :: 0 <= j < |componentNames| ==> r[j].0 == componentNames[j] && |r[j].1| == 2 * TotalPlies(stack, levels, |levels|)
  {
    var columns := Columns(componentNames, columnOf);
    StackAveragesShape(stack, levels, infos, field, width, columns, |levels|);
    var entries := StackAverages(stack, levels, infos, field, width, columns, |levels|).value;
    ByComponentNameShape(componentNames, entries, 2 * TotalPlies(stack, levels, |levels|));
  }

  /** The first loop of a homogeneous level's averages: each element's component averages. */
  method CollectElementMeans(level: seq<int>, field: map<int, seq<seq<real>>>, width: nat, columns: seq<int>)
    returns (r: Result<seq<seq<Float>>>)
    requires FieldShaped(field, width)
    ensures r == ElementMeans(level, field, width, columns, |level|)
  {
    var means: seq<seq<Float>> := [];
    var k := 0;
    while k < |level|
      invariant 0 <= k <= |level|
      invariant ElementMeans(level, field, width, columns, k) == Ok(means)
    {
      var e := level[k];
      if e !in field {
        ElementMeansFail(level, field, width, columns, k + 1, |level|);
        return Err(ValueError);
      }
      var m := ColumnMeans(field[e], width, columns);
      if m.Err? {
        ElementMeansFail(level, field, width, columns, k + 1, |level|);
        return Err(m.error);
      }
      means := means + [m.value];
      k := k + 1;
    }
    return Ok(means);
  }

  /** The loops of a homogeneous level's averages: the ply-count check, then the element averages. */
  method CollectHomogeneousAverages(stack: SolidStack, level: seq<int>, field: map<int, seq<seq<real>>>, width: nat,
                                    columns: seq<int>) returns (r: Result<seq<seq<Float>>>)
    requires FieldShaped(field, width)
    ensures r == HomogeneousAverages(stack, level, field, width, columns)
  {
    if level == [] {
      return Err(IndexError);
    }
    if level[0] !in stack.elementWiseAnalysisPlies {
      return Err(KeyError);
    }
    var numPlies := |stack.elementWiseAnalysisPlies[level[0]]|;
    var mismatch := CheckPlyCounts(stack, level, numPlies);
    if mismatch.Some? {
      return Err(mismatch.value);
    }
    var means := CollectElementMeans(level, field, width, columns);
    if means.Err? {
      return Err(means.error);
    }
    return Ok(Repeat(LevelMeans(means.value, |columns|), 2 * numPlies));
  }

  /** The body of the level loop for averages. */
  method CollectLevelAverages(stack: SolidStack, level: seq<int>, infos: map<int, ElementInfo>,
                              field: map<int, seq<seq<real>>>, width: nat, columns: seq<int>)
    returns (block: Result<seq<seq<Float>>>)
    requires FieldShaped(field, width)
    ensures block == LevelAverages(stack, level, infos, field, width, columns)
  {
    var isLayered := false;
    if |level| == 1 {
      var e := level[0];
      var info := GetElementInfo(infos, e);
      if info.Err? {
        return Err(info.error);
      }
      isLayered := info.value.isLayered;
      if isLayered {
        if e !in field {
          return Err(ValueError);
        }
        if e !in stack.elementWiseAnalysisPlies {
          return Err(KeyError);
        }
        block := CollectPlyWise(AverageReader(Some(info.value), field[e], width, columns), |stack.elementWiseAnalysisPlies[e]|);
      }
    }
    if !isLayered {
      block := CollectHomogeneousAverages(stack, level, field, width, columns);
    }
  }

  /** The loop of `get_through_the_thickness_results` over the levels of the stack. */
  method CollectStackAverages(stack: SolidStack, levels: seq<seq<int>>, infos: map<int, ElementInfo>,
                              field: map<int, seq<seq<real>>>, width: nat, columns: seq<int>)
    returns (r: Result<seq<seq<Float>>>)
    requires FieldShaped(field, width)
    ensures r == StackAverages(stack, levels, infos, field, width, columns, |levels|)
  {
    var entries: seq<seq<Float>> := [];
    var i := 0;
    while i < |levels|
      invariant 0 <= i <= |levels|
      invariant StackAverages(stack, levels, infos, field, width, columns, i) == Ok(entries)
    {
      var block := CollectLevelAverages(stack, levels[i], infos, field, width, columns);
      StackAveragesStep(stack, levels, infos, field, width, columns, i, entries, block);
      if block.Err? {
        StackAveragesFail(stack, levels, infos, field, width, columns, i + 1);
        return Err(block.error);
      }
      entries := entries + block.value;
      i := i + 1;
    }
    return Ok(entries);
  }

  /** `get_through_the_thickness_results`: the level loop, then one list per component. */
  method GetThroughTheThicknessResults(stack: SolidStack, levels: seq<seq<int>>, infos: map<int, ElementInfo>,
                                       field: map<int, seq<seq<real>>>, width: nat, componentNames: seq<string>,
                                       columnOf: string -> int) returns (r: Result<seq<(string, seq<Float>)>>)
    requires FieldShaped(field, width)
    ensures r == ThroughTheThicknessResults(stack, levels, infos, field, width, componentNames, columnOf)
  {
    var columns := Columns(componentNames, columnOf);
    var entries := CollectStackAverages(stack, levels, infos, field, width, columns);
    if entries.Err? {
      return Err(entries.error);
    }
    StackAveragesShape(stack, levels, infos, field, width, columns, |levels|);
    r := Ok(ByComponentName(componentNames, entries.value));
  }
}
