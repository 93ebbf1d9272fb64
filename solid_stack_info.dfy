// Solid stacks: the solid elements stacked through the thickness of a solid
// model, the provider that groups the mesh's elements into stacks, and the
// reserve-factor conversions of the through-the-thickness failure results.
module SolidStackInfo {
  import opened Common
  import opened Layout
  import opened SelectIndices
  import opened SamplingPointTypes
  import opened FailureModes

  /** Reserve factors are capped at this value. */
  const MaxReserveFactor: real := 1000.0

  /** `_irf2rf`: the reserve factor of an inverse reserve factor; 0 maps to the cap. */
  function IrfToRf(irf: real): (r: real)
    ensures r <= MaxReserveFactor
    ensures irf == 0.0 ==> r == MaxReserveFactor
    ensures irf < 0.0 || irf * MaxReserveFactor >= 1.0 ==> r * irf == 1.0
    ensures 0.0 < irf && irf * MaxReserveFactor < 1.0 ==> r == MaxReserveFactor
  {
    if irf == 0.0 then MaxReserveFactor
    else
      var rf := 1.0 / irf;
      if rf < MaxReserveFactor then rf else MaxReserveFactor
  }

  /** `_irf2mos`: the margin of safety, the reserve factor minus one. */
  function IrfToMos(irf: real): (r: real)
    ensures r == IrfToRf(irf) - 1.0
  {
    IrfToRf(irf) - 1.0
  }

  /** A larger positive inverse reserve factor never gives a larger reserve factor. */
  lemma IrfToRfAntitone(a: real, b: real)
    requires 0.0 < a <= b
    ensures IrfToRf(b) <= IrfToRf(a)
  {
    var ra, rb := IrfToRf(a), IrfToRf(b);
    if a * MaxReserveFactor >= 1.0 {
      assert ra * a == 1.0 && rb * b == 1.0;
      assert rb > 0.0 by {
        assert rb * b > 0.0;
      }
      assert rb * a <= rb * b;
      assert (rb - ra) * a <= 0.0;
    }
  }

  /** For a positive inverse reserve factor the margin of safety is negative exactly when the ply fails (irf > 1). */
  lemma MarginNegativeIffFailed(irf: real)
    requires irf > 0.0
    ensures IrfToMos(irf) < 0.0 <==> irf > 1.0
    ensures IrfToMos(irf) == 0.0 <==> irf == 1.0
  {
    if irf * MaxReserveFactor >= 1.0 {
      var rf := IrfToRf(irf);
      assert rf * irf == 1.0;
      if irf > 1.0 {
        assert rf < 1.0;
      } else if irf < 1.0 {
        assert rf > 1.0;
      }
    }
  }

  /**
   * A stack of solid elements from bottom to top, with each element's
   * analysis plies and their thicknesses.
   */
  datatype SolidStack = SolidStack(
    elementIds: seq<int>,
    elementWiseAnalysisPlies: map<int, seq<string>>,
    elementPlyThicknesses: map<int, seq<real>>)

  /**
   * One element's plies paired with their thicknesses. The thickness list is only
   * read for an element with plies; a missing key raises KeyError, a short list IndexError.
   */
  function ElementPlies(stack: SolidStack, e: int): (r: Result<seq<(string, real)>>)
    ensures r.Ok? ==> e in stack.elementWiseAnalysisPlies && |r.value| == |stack.elementWiseAnalysisPlies[e]|
    ensures r.Ok? && r.value != [] ==>
      e in stack.elementPlyThicknesses && |stack.elementPlyThicknesses[e]| >= |r.value| &&
      forall k :: 0 <= k < |r.value| ==>
        r.value[k] == (stack.elementWiseAnalysisPlies[e][k], stack.elementPlyThicknesses[e][k])
    ensures r.Err? ==> r.error == KeyError || r.error == IndexError
  {
    if e !in stack.elementWiseAnalysisPlies then Err(KeyError)
    else
      var plies := stack.elementWiseAnalysisPlies[e];
      if plies == [] then Ok([])
      else if e !in stack.elementPlyThicknesses then Err(KeyError)
      else
        var ths := stack.elementPlyThicknesses[e];
        if |ths| < |plies| then Err(IndexError)
        else Ok(seq(|plies|, k requires 0 <= k < |plies| => (plies[k], ths[k])))
  }

  /** The plies of the first `n` elements, bottom to top. */
  function FlatPlies(stack: SolidStack, n: nat): Result<seq<(string, real)>>
    requires n <= |stack.elementIds|
  {
    if n == 0 then Ok([])
    else
      match FlatPlies(stack, n - 1)
      case Err(e) => Err(e)
      case Ok(below) =>
        match ElementPlies(stack, stack.elementIds[n - 1])
        case Err(e) => Err(e)
        case Ok(plies) => Ok(below + plies)
  }

  /** The total number of analysis plies of the first `n` elements. */
  function PlyCount(stack: SolidStack, n: nat): nat
    requires n <= |stack.elementIds|
  {
    if n == 0 then 0
    else
      var e := stack.elementIds[n - 1];
      PlyCount(stack, n - 1) + (if e in stack.elementWiseAnalysisPlies then |stack.elementWiseAnalysisPlies[e]| else 0)
  }

  /** The flattened list holds one entry per analysis ply of every element. */
  lemma {:induction false} FlatPliesLength(stack: SolidStack, n: nat)
    requires n <= |stack.elementIds| && FlatPlies(stack, n).Ok?
    ensures |FlatPlies(stack, n).value| == PlyCount(stack, n)
  {
    if n > 0 {
      FlatPliesLength(stack, n - 1);
    }
  }

  /** Ply `k` of element `i` sits after the plies of the elements below it. */
  lemma {:induction false} FlatPliesAt(stack: SolidStack, n: nat, i: int, k: int)
    requires n <= |stack.elementIds| && FlatPlies(stack, n).Ok? && 0 <= i < n
    requires ElementPlies(stack, stack.elementIds[i]).Ok? && 0 <= k < |ElementPlies(stack, stack.elementIds[i]).value|
    ensures FlatPlies(stack, i).Ok?
    ensures 0 <= |FlatPlies(stack, i).value| + k < |FlatPlies(stack, n).value|
    ensures FlatPlies(stack, n).value[|FlatPlies(stack, i).value| + k] == ElementPlies(stack, stack.elementIds[i]).value[k]
  {
    if i < n - 1 {
      FlatPliesAt(stack, n - 1, i, k);
    }
  }

  /** `analysis_ply_ids_and_thicknesses`: every element's (ply, thickness) pairs, bottom to top. */
  method AnalysisPlyIdsAndThicknesses(stack: SolidStack) returns (r: Result<seq<(string, real)>>)
    ensures r == FlatPlies(stack, |stack.elementIds|)
  {
    var res: seq<(string, real)> := [];
    var i := 0;
    while i < |stack.elementIds|
      invariant 0 <= i <= |stack.elementIds|
      invariant FlatPlies(stack, i) == Ok(res)
    {
      var e := stack.elementIds[i];
      if e !in stack.elementWiseAnalysisPlies {
        FlatPliesFails(stack, i + 1, |stack.elementIds|);
        return Err(KeyError);
      }
      var plies := stack.elementWiseAnalysisPlies[e];
      ghost var below := res;
      var k := 0;
      while k < |plies|
        invariant 0 <= k <= |plies|
        invariant k > 0 ==> e in stack.elementPlyThicknesses && |stack.elementPlyThicknesses[e]| >= k
        invariant |res| == |below| + k && res[..|below|] == below
        invariant forall j :: 0 <= j < k ==> res[|below| + j] == (plies[j], stack.elementPlyThicknesses[e][j])
      {
        if e !in stack.elementPlyThicknesses {
          FlatPliesFails(stack, i + 1, |stack.elementIds|);
          return Err(KeyError);
        }
        if k >= |stack.elementPlyThicknesses[e]| {
          FlatPliesFails(stack, i + 1, |stack.elementIds|);
          return Err(IndexError);
        }
        res := res + [(plies[k], stack.elementPlyThicknesses[e][k])];
        k := k + 1;
      }
      assert res == below + ElementPlies(stack, e).value;
      i := i + 1;
    }
    return Ok(res);
  }

  /** Once the first `i` elements fail, so do all of them. */
  lemma {:induction false} FlatPliesFails(stack: SolidStack, i: nat, n: nat)
    requires i <= n <= |stack.elementIds| && FlatPlies(stack, i).Err?
    ensures FlatPlies(stack, n) == FlatPlies(stack, i)
    decreases n - i
  {
    if i < n {
      FlatPliesFails(stack, i, n - 1);
    }
  }

  /** The name of the mesh property field that lists the stacks. */
  const SolidStackPropertyFieldName: string := "solid_stacks"

  /**
   * The elements of one stack entry (element id, level) that have analysis plies, in
   * order; `pliesOf` is the lay-up provider's `get_analysis_plies`, empty for none.
   */
  function KeptElements(entries: seq<(int, int)>, pliesOf: int -> seq<string>): (r: seq<int>)
    ensures |r| <= |entries|
    ensures forall i :: 0 <= i < |r| ==> pliesOf(r[i]) != []
  {
    if entries == [] then []
    else
      var rest := KeptElements(entries[..|entries| - 1], pliesOf);
      var e := entries[|entries| - 1].0;
      if pliesOf(e) != [] then rest + [e] else rest
  }

  /** Every entry with analysis plies is kept, and nothing else. */
  lemma {:induction false} KeptElementsIff(entries: seq<(int, int)>, pliesOf: int -> seq<string>, e: int)
    ensures e in KeptElements(entries, pliesOf) <==> pliesOf(e) != [] && exists k :: 0 <= k < |entries| && entries[k].0 == e
  {
    if entries != [] {
      var n := |entries| - 1;
      KeptElementsIff(entries[..n], pliesOf, e);
      if pliesOf(e) != [] && entries[n].0 != e && exists k :: 0 <= k < |entries| && entries[k].0 == e {
        var k :| 0 <= k < |entries| && entries[k].0 == e;
        assert entries[..n][k].0 == e;
      }
    }
  }

  /** The stack `_prepare_data` builds from one entry of the property field. */
  function StackOf(entries: seq<(int, int)>, pliesOf: int -> seq<string>, thicknessesOf: int -> seq<real>): SolidStack
  {
    var ids := KeptElements(entries, pliesOf);
    SolidStack(ids, map e | e in ids :: pliesOf(e), map e | e in ids :: thicknessesOf(e))
  }

  /** One stack per entry of the property field, empty ones included. */
  function StacksOf(data: seq<seq<(int, int)>>, pliesOf: int -> seq<string>, thicknessesOf: int -> seq<real>): (r: seq<SolidStack>)
    ensures |r| == |data|
  {
    seq(|data|, i requires 0 <= i < |data| => StackOf(data[i], pliesOf, thicknessesOf))
  }

  /** Element id to the index of its stack; an element kept by several stacks maps to the last. */
  function StackIndex(data: seq<seq<(int, int)>>, pliesOf: int -> seq<string>): map<int, int>
  {
    if data == [] then map[]
    else
      var n := |data| - 1;
      StackIndex(data[..n], pliesOf) + map e | e in KeptElements(data[n], pliesOf) :: n
  }

  /** Preparing one more entry appends its stack. */
  lemma StacksOfStep(data: seq<seq<(int, int)>>, pliesOf: int -> seq<string>, thicknessesOf: int -> seq<real>, i: int)
    requires 0 <= i < |data|
    ensures StacksOf(data[..i + 1], pliesOf, thicknessesOf) == StacksOf(data[..i], pliesOf, thicknessesOf) + [StackOf(data[i], pliesOf, thicknessesOf)]
  {
  }

  /** Preparing one more entry maps its kept elements to its index. */
  lemma StackIndexStep(data: seq<seq<(int, int)>>, pliesOf: int -> seq<string>, i: int)
    requires 0 <= i < |data|
    ensures StackIndex(data[..i + 1], pliesOf) == StackIndex(data[..i], pliesOf) + map e | e in KeptElements(data[i], pliesOf) :: i
  {
    assert data[..i + 1][..i] == data[..i];
  }

  /** Every mapped element lies in the stack it maps to. */
  lemma {:induction false} StackIndexValid(data: seq<seq<(int, int)>>, pliesOf: int -> seq<string>, e: int)
    requires e in StackIndex(data, pliesOf)
    ensures 0 <= StackIndex(data, pliesOf)[e] < |data|
    ensures e in KeptElements(data[StackIndex(data, pliesOf)[e]], pliesOf)
  {
    var n := |data| - 1;
    if e !in KeptElements(data[n], pliesOf) {
      StackIndexValid(data[..n], pliesOf, e);
      assert data[..n][StackIndex(data[..n], pliesOf)[e]] == data[StackIndex(data, pliesOf)[e]];
    }
  }

  /** An element kept by stack `i` is mapped, to `i` or a later stack that keeps it too. */
  lemma {:induction false} StackIndexLastWins(data: seq<seq<(int, int)>>, pliesOf: int -> seq<string>, e: int, i: int)
    requires 0 <= i < |data| && e in KeptElements(data[i], pliesOf)
    ensures e in StackIndex(data, pliesOf) && i <= StackIndex(data, pliesOf)[e]
  {
    var n := |data| - 1;
    if i < n && e !in KeptElements(data[n], pliesOf) {
      assert data[..n][i] == data[i];
      StackIndexLastWins(data[..n], pliesOf, e, i);
    }
  }

  /**
   * `SolidStackProvider`: the stacks of the mesh and, for every element with
   * analysis plies, the index of its stack.
   */
  class SolidStackProvider {
    const stackData: seq<seq<(int, int)>>
    const pliesOf: int -> seq<string>
    const thicknessesOf: int -> seq<real>
    var elementToStackIndex: map<int, int>
    var solidStacks: seq<SolidStack>

    /** Every mapped element lies in the stack it maps to. */
    ghost predicate Valid()
      reads this
    {
      forall e :: e in elementToStackIndex ==>
        0 <= elementToStackIndex[e] < |solidStacks| && e in solidStacks[elementToStackIndex[e]].elementIds
    }

    /** The constructor, once the property field is known to exist: it prepares the stacks. */
    constructor(stackData: seq<seq<(int, int)>>, pliesOf: int -> seq<string>, thicknessesOf: int -> seq<real>)
      ensures this.stackData == stackData && this.pliesOf == pliesOf && this.thicknessesOf == thicknessesOf
      ensures solidStacks == StacksOf(stackData, pliesOf, thicknessesOf)
      ensures elementToStackIndex == StackIndex(stackData, pliesOf)
      ensures Valid()
    {
      this.stackData := stackData;
      this.pliesOf := pliesOf;
      this.thicknessesOf := thicknessesOf;
      elementToStackIndex := map[];
      solidStacks := [];
      new;
      PrepareData();
    }

    /** `number_of_stacks`: the size of the property field's scoping. */
    function NumberOfStacks(): (r: nat)
      ensures r == |stackData|
    {
      |stackData|
    }

    /** `_prepare_data`: one stack per entry; each kept element is mapped to its stack's index. */
    method PrepareData()
      requires elementToStackIndex == map[] && solidStacks == []
      modifies this
      ensures solidStacks == StacksOf(stackData, pliesOf, thicknessesOf)
      ensures elementToStackIndex == StackIndex(stackData, pliesOf)
      ensures Valid()
    {
      var index := 0;
      while index < |stackData|
        invariant 0 <= index <= |stackData|
        invariant solidStacks == StacksOf(stackData[..index], pliesOf, thicknessesOf)
        invariant elementToStackIndex == StackIndex(stackData[..index], pliesOf)
      {
        var stack := CollectStack(stackData[index]);
        StacksOfStep(stackData, pliesOf, thicknessesOf, index);
        StackIndexStep(stackData, pliesOf, index);
        solidStacks := solidStacks + [stack];
        index := index + 1;
      }
      assert stackData[..index] == stackData;
      forall e | e in elementToStackIndex
        ensures 0 <= elementToStackIndex[e] < |solidStacks| && e in solidStacks[elementToStackIndex[e]].elementIds
      {
        StackIndexValid(stackData, pliesOf, e);
      }
    }

    /** The body of `_prepare_data` for one entry: the stack, with its kept elements mapped to the next index. */
    method CollectStack(entries: seq<(int, int)>) returns (stack: SolidStack)
      modifies this
      ensures solidStacks == old(solidStacks)
      ensures stack == StackOf(entries, pliesOf, thicknessesOf)
      ensures elementToStackIndex == old(elementToStackIndex) + map e | e in KeptElements(entries, pliesOf) :: |solidStacks|
    {
      var elementIds: seq<int> := [];
      ghost var before := elementToStackIndex;
      var index := |solidStacks|;
      var j := 0;
      while j < |entries|
        invariant 0 <= j <= |entries|
        invariant solidStacks == old(solidStacks)
        invariant elementIds == KeptElements(entries[..j], pliesOf)
        invariant elementToStackIndex == before + map e | e in elementIds :: index
      {
        var e := entries[j].0;
        assert entries[..j + 1][..j] == entries[..j];
        var plyIds := pliesOf(e);
        if plyIds != [] {
          OverwriteStep(before, elementIds, elementIds + [e], e, index);
          elementIds := elementIds + [e];
          elementToStackIndex := elementToStackIndex[e := index];
        }
        j := j + 1;
      }
      assert entries[..|entries|] == entries;
      var plies := map e | e in elementIds :: pliesOf(e);
      var thicknesses := map e | e in elementIds :: thicknessesOf(e);
      return SolidStack(elementIds, plies, thicknesses);
    }

    /** `get_solid_stack`: the stack of an element, or None when it belongs to none. */
    function GetSolidStack(e: int): (r: Option<SolidStack>)
      reads this
      requires Valid()
      ensures r.Some? <==> e in elementToStackIndex
      ensures r.Some? ==> e in r.value.elementIds
    {
      AssignedStack(solidStacks, elementToStackIndex, e)
    }

    /**
     * `get_solid_stacks`: the stacks of the given elements, each once, in the order
     * they are first met; a stack is skipped once its first element is covered.
     */
    method GetSolidStacks(ids: seq<int>) returns (r: seq<SolidStack>)
      requires Valid()
      ensures r == DistinctStacks(Found(solidStacks, elementToStackIndex, ids))
    {
      ghost var found := Found(solidStacks, elementToStackIndex, ids);
      var processed: seq<int> := [];
      r := [];
      var k := 0;
      while k < |ids|
        invariant 0 <= k <= |ids|
        invariant r == DistinctStacks(found[..k])
        invariant processed == AllElementIds(r)
      {
        var stack := GetSolidStack(ids[k]);
        assert found[..k + 1][..k] == found[..k];
        if stack.Some? && stack.value.elementIds[0] !in processed {
          r := r + [stack.value];
          processed := processed + stack.value.elementIds;
        }
        k := k + 1;
      }
      assert found[..k] == found;
    }
  }

  /** The stack `index` assigns to element `e`, if any. */
  function AssignedStack(stacks: seq<SolidStack>, index: map<int, int>, e: int): Option<SolidStack>
  {
    if e in index && 0 <= index[e] < |stacks| then Some(stacks[index[e]]) else None
  }

  /** The stack of each given element, as `get_solid_stack` returns it. */
  function Found(stacks: seq<SolidStack>, index: map<int, int>, ids: seq<int>): (r: seq<Option<SolidStack>>)
    ensures |r| == |ids|
    ensures forall m :: 0 <= m < |ids| ==> r[m] == AssignedStack(stacks, index, ids[m])
  {
    seq(|ids|, m requires 0 <= m < |ids| => AssignedStack(stacks, index, ids[m]))
  }

  /** The found stacks, each kept only when its first element is not covered by the stacks kept before it. */
  function DistinctStacks(found: seq<Option<SolidStack>>): (r: seq<SolidStack>)
    ensures forall i :: 0 <= i < |r| ==> |r[i].elementIds| > 0
  {
    if found == [] then []
    else
      var r := DistinctStacks(found[..|found| - 1]);
      var s := found[|found| - 1];
      if s.Some? && |s.value.elementIds| > 0 && s.value.elementIds[0] !in AllElementIds(r) then r + [s.value] else r
  }

  /** Every kept stack was found, and none is empty. */
  lemma {:induction false} DistinctStacksFound(found: seq<Option<SolidStack>>, i: int)
    requires 0 <= i < |DistinctStacks(found)|
    ensures exists k :: 0 <= k < |found| && found[k] == Some(DistinctStacks(found)[i])
  {
    var n := |found| - 1;
    var r := DistinctStacks(found[..n]);
    if i < |r| {
      DistinctStacksFound(found[..n], i);
      var k :| 0 <= k < n && found[..n][k] == Some(r[i]);
      assert found[k] == Some(DistinctStacks(found)[i]);
    } else {
      assert found[n] == Some(DistinctStacks(found)[i]);
    }
  }

  /** No kept stack holds the first element of a later one: the stacks are distinct. */
  lemma {:induction false} DistinctStacksApart(found: seq<Option<SolidStack>>)
    ensures forall i, j :: 0 <= i < j < |DistinctStacks(found)| ==>
      DistinctStacks(found)[j].elementIds[0] !in DistinctStacks(found)[i].elementIds
  {
    if found != [] {
      var n := |found| - 1;
      var r := DistinctStacks(found[..n]);
      DistinctStacksApart(found[..n]);
      var s := found[n];
      if s.Some? && |s.value.elementIds| > 0 && s.value.elementIds[0] !in AllElementIds(r) {
        AppendUncoveredStack(r, s.value);
      }
    }
  }

  /** Scanning one more element keeps the stacks kept so far. */
  lemma DistinctStacksKeep(found: seq<Option<SolidStack>>, i: int)
    requires found != [] && 0 <= i < |DistinctStacks(found[..|found| - 1])|
    ensures i < |DistinctStacks(found)| && DistinctStacks(found)[i] == DistinctStacks(found[..|found| - 1])[i]
  {
  }

  /** The first element of every found non-empty stack is covered by a kept stack. */
  lemma {:induction false} DistinctStacksCover(found: seq<Option<SolidStack>>, k: int)
    requires 0 <= k < |found| && found[k].Some? && |found[k].value.elementIds| > 0
    ensures exists i :: 0 <= i < |DistinctStacks(found)| && found[k].value.elementIds[0] in DistinctStacks(found)[i].elementIds
  {
    var n := |found| - 1;
    var r := DistinctStacks(found[..n]);
    var x := found[k].value.elementIds[0];
    if x in AllElementIds(r) || k < n {
      if x in AllElementIds(r) {
        AllElementIdsCovered(r, x);
      } else {
        assert found[..n][k] == found[k];
        DistinctStacksCover(found[..n], k);
      }
      var i :| 0 <= i < |r| && x in r[i].elementIds;
      DistinctStacksKeep(found, i);
    } else {
      assert DistinctStacks(found) == r + [found[k].value];
      assert x in DistinctStacks(found)[|r|].elementIds;
    }
  }


  /** A stack whose first element is not yet covered keeps the first elements of the stacks apart. */
  lemma AppendUncoveredStack(r: seq<SolidStack>, s: SolidStack)
    requires forall i :: 0 <= i < |r| ==> |r[i].elementIds| > 0
    requires forall i, j :: 0 <= i < j < |r| ==> r[j].elementIds[0] !in r[i].elementIds
    requires |s.elementIds| > 0 && s.elementIds[0] !in AllElementIds(r)
    ensures AllElementIds(r + [s]) == AllElementIds(r) + s.elementIds
    ensures forall i, j :: 0 <= i < j < |r + [s]| ==> (r + [s])[j].elementIds[0] !in (r + [s])[i].elementIds
  {
    NotInAnyStack(r, s.elementIds[0]);
    assert (r + [s])[..|r|] == r;
  }

  /** An id not among the stacks' ids is in none of the stacks. */
  lemma NotInAnyStack(r: seq<SolidStack>, x: int)
    requires x !in AllElementIds(r)
    ensures forall i :: 0 <= i < |r| ==> x !in r[i].elementIds
  {
    forall i | 0 <= i < |r|
      ensures x !in r[i].elementIds
    {
      if x in r[i].elementIds {
        AllElementIdsMember(r, i, x);
      }
    }
  }

  /** The element ids of the stacks, one stack after the other (`processed_elements`). */
  function AllElementIds(stacks: seq<SolidStack>): seq<int>
  {
    if stacks == [] then [] else AllElementIds(stacks[..|stacks| - 1]) + stacks[|stacks| - 1].elementIds
  }

  /** The ids of every stack are among them. */
  lemma {:induction false} AllElementIdsMember(stacks: seq<SolidStack>, i: int, x: int)
    requires 0 <= i < |stacks| && x in stacks[i].elementIds
    ensures x in AllElementIds(stacks)
  {
    var n := |stacks| - 1;
    if i < n {
      assert stacks[..n][i] == stacks[i];
      AllElementIdsMember(stacks[..n], i, x);
    }
  }

  /** Nothing else is among them. */
  lemma {:induction false} AllElementIdsCovered(stacks: seq<SolidStack>, x: int)
    requires x in AllElementIds(stacks)
    ensures exists i :: 0 <= i < |stacks| && x in stacks[i].elementIds
  {
    var n := |stacks| - 1;
    if x !in stacks[n].elementIds {
      AllElementIdsCovered(stacks[..n], x);
      var i :| 0 <= i < n && x in stacks[..n][i].elementIds;
      assert stacks[..n][i] == stacks[i];
    }
  }

  /** `SolidStackProvider(...)`: RuntimeError when the mesh has no "solid_stacks" property field. */
  method NewSolidStackProvider(availablePropertyFields: set<string>, stackData: seq<seq<(int, int)>>,
                               pliesOf: int -> seq<string>, thicknessesOf: int -> seq<real>)
    returns (r: Result<SolidStackProvider>)
    ensures r.Err? <==> SolidStackPropertyFieldName !in availablePropertyFields
    ensures r.Err? ==> r.error == RuntimeError
    ensures r.Ok? ==>
      fresh(r.value) && r.value.Valid() &&
      r.value.solidStacks == StacksOf(stackData, pliesOf, thicknessesOf) &&
      r.value.elementToStackIndex == StackIndex(stackData, pliesOf)
  {
    if SolidStackPropertyFieldName !in availablePropertyFields {
      return Err(RuntimeError);
    }
    var provider := new SolidStackProvider(stackData, pliesOf, thicknessesOf);
    return Ok(provider);
  }

  /** The two spots read per ply of a solid element. */
  const SolidSpots: seq<Spot> := [Bottom, Top]

  /**
   * `f` is the failure at `c`, where the inverse reserve factors first peak: the
   * mode named by the code there (truncated to an integer), the value and its conversions.
   */
  predicate FailureAt(irfs: seq<real>, modes: seq<real>, c: int, f: FailureResult)
  {
    IsFirstMax(irfs, c) && c < |modes| && FailureModeName(Trunc(modes[c])).Some? &&
    f == FailureResult(FailureModeName(Trunc(modes[c])).value, irfs[c], IrfToRf(irfs[c]), IrfToMos(irfs[c]))
  }

  /** The rows of one ply and spot: all nodes of layer `ply` at `spot`, checked. */
  function SpotRows(info: ElementInfo, ply: int, spot: Spot): Result<seq<int>>
  {
    SelectedIndices(info, Some([ply]), None, Some([spot]), false)
  }

  /**
   * The failure read from the selected rows: where their inverse reserve factor first
   * peaks (`argmax`). No rows, or an unknown mode code there, raise ValueError.
   */
  function RowsFailure(spotIrfs: seq<real>, spotModes: seq<real>): (r: Result<FailureResult>)
    requires |spotModes| == |spotIrfs|
    ensures r.Ok? <==> spotIrfs != [] && FailureModeName(Trunc(spotModes[FirstArgMax(spotIrfs)])).Some?
    ensures r.Ok? ==> FailureAt(spotIrfs, spotModes, FirstArgMax(spotIrfs), r.value)
    ensures r.Err? ==> r.error == ValueError
  {
    if spotIrfs == [] then Err(ValueError)
    else
      var c := FirstArgMax(spotIrfs);
      var code := Trunc(spotModes[c]);
      if FailureModeName(code).None? then Err(ValueError)
      else
        var irf := spotIrfs[c];
        Ok(FailureResult(FailureModeName(code).value, irf, IrfToRf(irf), IrfToMos(irf)))
  }

  /** A failure read from rows is read at their one first maximum: no other row can be reported. */
  lemma FailureAtUnique(irfs: seq<real>, modes: seq<real>, c: int, d: int, f: FailureResult, g: FailureResult)
    requires FailureAt(irfs, modes, c, f) && FailureAt(irfs, modes, d, g)
    ensures c == d && f == g
  {
    FirstMaxUnique(irfs, c, d);
  }

  /**
   * The failure of one ply at one spot: the rows of that ply and spot are selected and
   * their failure read. A failed selection raises its own error, an index past the data
   * IndexError.
   */
  function SpotFailure(info: ElementInfo, irfs: seq<real>, modes: seq<real>, ply: int, spot: Spot): (r: Result<FailureResult>)
    ensures SpotRows(info, ply, spot).Err? ==> r == Err(SpotRows(info, ply, spot).error)
    ensures r.Ok? ==>
      var rows := SpotRows(info, ply, spot).value;
      SpotRows(info, ply, spot).Ok? && Gather(irfs, rows).Ok? && Gather(modes, rows).Ok? &&
      r == RowsFailure(Gather(irfs, rows).value, Gather(modes, rows).value)
  {
    match SpotRows(info, ply, spot)
    case Err(e) => Err(e)
    case Ok(rows) =>
      match Gather(irfs, rows)
      case Err(e) => Err(e)
      case Ok(spotIrfs) =>
        match Gather(modes, rows)
        case Err(e) => Err(e)
        case Ok(spotModes) => RowsFailure(spotIrfs, spotModes)
  }

  /**
   * What `read` gives for the first `n` plies of a layered element, read at the spots of
   * a solid element (bottom then top) ply after ply; the first failing read stops it.
   */
  function PlyWise<T>(read: (int, Spot) --> Result<T>, n: nat): Result<seq<T>>
    requires forall p, s :: read.requires(p, s)
  {
    if n == 0 then Ok([])
    else
      match PlyWise(read, n - 1)
      case Err(e) => Err(e)
      case Ok(below) =>
        match read(n - 1, Bottom)
        case Err(e) => Err(e)
        case Ok(bottom) =>
          match read(n - 1, Top)
          case Err(e) => Err(e)
          case Ok(top) => Ok(below + [bottom, top])
  }

  /** Two entries per ply, ply `p` giving its bottom entry at `2 p` and its top entry right after. */
  lemma {:induction false} PlyWiseAt<T>(read: (int, Spot) --> Result<T>, n: nat, p: int)
    requires (forall p, s :: read.requires(p, s)) && PlyWise(read, n).Ok? && 0 <= p < n
    ensures |PlyWise(read, n).value| == 2 * n
    ensures read(p, Bottom).Ok? && read(p, Top).Ok?
    ensures PlyWise(read, n).value[2 * p] == read(p, Bottom).value
    ensures PlyWise(read, n).value[2 * p + 1] == read(p, Top).value
  {
    if n > 1 {
      PlyWiseAt(read, n - 1, if p < n - 1 then p else 0);
    }
  }

  /** Every ply succeeds exactly when the whole read does. */
  lemma {:induction false} PlyWiseOk<T>(read: (int, Spot) --> Result<T>, n: nat)
    requires forall p, s :: read.requires(p, s)
    ensures PlyWise(read, n).Ok? <==> forall p, s :: 0 <= p < n && s in SolidSpots ==> read(p, s).Ok?
  {
    if n > 0 {
      PlyWiseOk(read, n - 1);
      if PlyWise(read, n).Ok? {
        forall p, s | 0 <= p < n && s in SolidSpots
          ensures read(p, s).Ok?
        {
          if p < n - 1 {
            assert read(p, s).Ok?;
          }
        }
      }
    }
  }

  /** Once a ply fails, the whole read fails with that ply's error. */
  lemma {:induction false} PlyWiseFail<T>(read: (int, Spot) --> Result<T>, i: nat, n: nat)
    requires (forall p, s :: read.requires(p, s)) && i <= n && PlyWise(read, i).Err?
    ensures PlyWise(read, n) == PlyWise(read, i)
    decreases n - i
  {
    if i < n {
      PlyWiseFail(read, i, n - 1);
    }
  }

  /** Two entries per ply. */
  lemma {:induction false} PlyWiseLength<T>(read: (int, Spot) --> Result<T>, n: nat)
    requires (forall p, s :: read.requires(p, s)) && PlyWise(read, n).Ok?
    ensures |PlyWise(read, n).value| == 2 * n
  {
    if n > 0 {
      PlyWiseLength(read, n - 1);
    }
  }

  /**
   * The failure at one ply and spot of an element whose layout may be missing: the
   * selection then reads an attribute of `None`, which raises AttributeError.
   */
  function FailureReader(info: Option<ElementInfo>, irfs: seq<real>, modes: seq<real>): (int, Spot) -> Result<FailureResult>
  {
    (p, s) => if info.None? then Err(AttributeError) else SpotFailure(info.value, irfs, modes, p, s)
  }

  /** The failures of the first `n` plies of a layered element, bottom then top spot of each ply. */
  function ElementFailures(info: Option<ElementInfo>, irfs: seq<real>, modes: seq<real>, n: nat): Result<seq<FailureResult>>
  {
    PlyWise(FailureReader(info, irfs, modes), n)
  }

  /**
   * The loop over plies and spots shared by the through-the-thickness functions: for each
   * ply of a layered element, `read` at the bottom and then at the top.
   */
  method CollectPlyWise<T>(read: (int, Spot) --> Result<T>, nPlies: nat) returns (r: Result<seq<T>>)
    requires forall p, s :: read.requires(p, s)
    ensures r == PlyWise(read, nPlies)
  {
    var results: seq<T> := [];
    var p := 0;
    while p < nPlies
      invariant 0 <= p <= nPlies
      invariant PlyWise(read, p) == Ok(results)
    {
      // the spots of SOLID_SPOTS, bottom then top
      var bottom := read(p, Bottom);
      if bottom.Err? {
        PlyWiseFail(read, p + 1, nPlies);
        return Err(bottom.error);
      }
      var top := read(p, Top);
      if top.Err? {
        PlyWiseFail(read, p + 1, nPlies);
        return Err(top.error);
      }
      results := results + [bottom.value, top.value];
      p := p + 1;
    }
    return Ok(results);
  }

  /** The failures of one layered element, each read at the first maximum of its rows. */
  method CollectElementFailures(info: Option<ElementInfo>, irfs: seq<real>, modes: seq<real>, nPlies: nat)
    returns (r: Result<seq<FailureResult>>)
    ensures r == ElementFailures(info, irfs, modes, nPlies)
  {
    r := CollectPlyWise(FailureReader(info, irfs, modes), nPlies);
  }

  /**
   * The failures of element `e` of a stack: its inverse reserve factors and failure modes
   * (an element missing from a field raises ValueError), its analysis plies (KeyError),
   * and then two failures per ply.
   */
  function LegacyElementFailures(stack: SolidStack, infos: map<int, ElementInfo>, irfField: map<int, seq<real>>,
                                 modeField: map<int, seq<real>>, e: int): Result<seq<FailureResult>>
  {
    if e !in irfField || e !in modeField then Err(ValueError)
    else if e !in stack.elementWiseAnalysisPlies then Err(KeyError)
    else
      var info := if e in infos then Some(infos[e]) else None;
      ElementFailures(info, irfField[e], modeField[e], |stack.elementWiseAnalysisPlies[e]|)
  }

  /** The failures of the first `n` elements of a stack, bottom to top. */
  function LegacyStackFailures(stack: SolidStack, infos: map<int, ElementInfo>, irfField: map<int, seq<real>>,
                               modeField: map<int, seq<real>>, n: nat): Result<seq<FailureResult>>
    requires n <= |stack.elementIds|
  {
    if n == 0 then Ok([])
    else
      match LegacyStackFailures(stack, infos, irfField, modeField, n - 1)
      case Err(e) => Err(e)
      case Ok(below) =>
        match LegacyElementFailures(stack, infos, irfField, modeField, stack.elementIds[n - 1])
        case Err(e) => Err(e)
        case Ok(block) => Ok(below + block)
  }

  /** Two failures, bottom and top, for every analysis ply of every element. */
  lemma {:induction false} LegacyStackFailuresLength(stack: SolidStack, infos: map<int, ElementInfo>, irfField: map<int, seq<real>>,
                                                     modeField: map<int, seq<real>>, n: nat)
    requires n <= |stack.elementIds| && LegacyStackFailures(stack, infos, irfField, modeField, n).Ok?
    ensures |LegacyStackFailures(stack, infos, irfField, modeField, n).value| == 2 * PlyCount(stack, n)
  {
    if n > 0 {
      LegacyStackFailuresLength(stack, infos, irfField, modeField, n - 1);
      var e := stack.elementIds[n - 1];
      var info := if e in infos then Some(infos[e]) else None;
      PlyWiseLength(FailureReader(info, irfField[e], modeField[e]), |stack.elementWiseAnalysisPlies[e]|);
    }
  }

  /** One more element appends its failures, or fails the stack with its error. */
  lemma LegacyStackFailuresStep(stack: SolidStack, infos: map<int, ElementInfo>, irfField: map<int, seq<real>>,
                                modeField: map<int, seq<real>>, i: nat, below: seq<FailureResult>,
                                block: Result<seq<FailureResult>>)
    requires i < |stack.elementIds| && LegacyStackFailures(stack, infos, irfField, modeField, i) == Ok(below)
    requires block == LegacyElementFailures(stack, infos, irfField, modeField, stack.elementIds[i])
    ensures LegacyStackFailures(stack, infos, irfField, modeField, i + 1) ==
      if block.Err? then Err(block.error) else Ok(below + block.value)
  {
  }

  /** Once an element fails, the stack fails with that element's error. */
  lemma {:induction false} LegacyStackFailuresFail(stack: SolidStack, infos: map<int, ElementInfo>, irfField: map<int, seq<real>>,
                                                   modeField: map<int, seq<real>>, i: nat, n: nat)
    requires i <= n <= |stack.elementIds| && LegacyStackFailures(stack, infos, irfField, modeField, i).Err?
    ensures LegacyStackFailures(stack, infos, irfField, modeField, n) == LegacyStackFailures(stack, infos, irfField, modeField, i)
    decreases n - i
  {
    if i < n {
      LegacyStackFailuresFail(stack, infos, irfField, modeField, i, n - 1);
    }
  }

  /** The failures of one element of a stack, as LegacyElementFailures gives them. */
  method CollectLegacyElementFailures(stack: SolidStack, infos: map<int, ElementInfo>, irfField: map<int, seq<real>>,
                                      modeField: map<int, seq<real>>, e: int)
    returns (r: Result<seq<FailureResult>>)
    ensures r == LegacyElementFailures(stack, infos, irfField, modeField, e)
  {
    if e !in irfField || e !in modeField {
      return Err(ValueError);
    }
    var irfs := irfField[e];
    var modes := modeField[e];
    if e !in stack.elementWiseAnalysisPlies {
      return Err(KeyError);
    }
    var plies := stack.elementWiseAnalysisPlies[e];
    var info := if e in infos then Some(infos[e]) else None;
    r := CollectElementFailures(info, irfs, modes, |plies|);
  }

  /**
   * `get_through_the_thickness_failure_results`: the failure at the bottom and the top of
   * every ply of every element of the stack. The fields map element ids to their
   * element-nodal data and `infos` holds the layouts the provider knows.
   */
  method GetThroughTheThicknessFailureResults(stack: SolidStack, infos: map<int, ElementInfo>,
                                              irfField: map<int, seq<real>>, modeField: map<int, seq<real>>)
    returns (r: Result<seq<FailureResult>>)
    ensures r == LegacyStackFailures(stack, infos, irfField, modeField, |stack.elementIds|)
  {
    var results: seq<FailureResult> := [];
    var i := 0;
    while i < |stack.elementIds|
      invariant 0 <= i <= |stack.elementIds|
      invariant LegacyStackFailures(stack, infos, irfField, modeField, i) == Ok(results)
    {
      var block := CollectLegacyElementFailures(stack, infos, irfField, modeField, stack.elementIds[i]);
      LegacyStackFailuresStep(stack, infos, irfField, modeField, i, results, block);
      if block.Err? {
        LegacyStackFailuresFail(stack, infos, irfField, modeField, i + 1, |stack.elementIds|);
        return Err(block.error);
      }
      results := results + block.value;
      i := i + 1;
    }
    return Ok(results);
  }

  /**
   * Entry `2 p` of an element's failures is the failure of ply `p` at the bottom, entry
   * `2 p + 1` the one at the top; each is read at the first maximum of its rows (the
   * contracts of SpotFailure and RowsFailure).
   */
  lemma ElementFailureIsFirstMax(info: ElementInfo, irfs: seq<real>, modes: seq<real>, n: nat, p: int, spot: Spot)
    requires ElementFailures(Some(info), irfs, modes, n).Ok? && 0 <= p < n && spot in SolidSpots
    ensures |ElementFailures(Some(info), irfs, modes, n).value| == 2 * n
    ensures SpotFailure(info, irfs, modes, p, spot).Ok?
    ensures ElementFailures(Some(info), irfs, modes, n).value[if spot == Bottom then 2 * p else 2 * p + 1] ==
            SpotFailure(info, irfs, modes, p, spot).value
  {
    PlyWiseAt(FailureReader(Some(info), irfs, modes), n, p);
  }

  /** A float64 result: a number, or the NaN numpy's `average` gives for no values. */
  datatype Float = Num(v: real) | NaN

  function Sum(xs: seq<real>): real
  {
    if xs == [] then 0.0 else Sum(xs[..|xs| - 1]) + xs[|xs| - 1]
  }

  /** numpy's `average` of a column: the arithmetic mean, NaN for an empty column. */
  function Mean(xs: seq<real>): (r: Float)
    ensures r.NaN? <==> xs == []
  {
    if xs == [] then NaN else Num(Sum(xs) / |xs| as real)
  }

  lemma {:induction false} SumBounds(xs: seq<real>, lo: real, hi: real)
    requires forall i :: 0 <= i < |xs| ==> lo <= xs[i] <= hi
    ensures lo * |xs| as real <= Sum(xs) <= hi * |xs| as real
  {
    if xs != [] {
      SumBounds(xs[..|xs| - 1], lo, hi);
    }
  }

  /** The mean of values within bounds is within the same bounds. */
  lemma MeanWithin(xs: seq<real>, lo: real, hi: real)
    requires xs != [] && forall i :: 0 <= i < |xs| ==> lo <= xs[i] <= hi
    ensures lo <= Mean(xs).v <= hi
  {
    SumBounds(xs, lo, hi);
    QuotientWithin(Sum(xs), |xs| as real, lo, hi);
  }

  lemma QuotientWithin(s: real, n: real, lo: real, hi: real)
    requires n > 0.0 && lo * n <= s <= hi * n
    ensures lo <= s / n <= hi
  {
    var q := s / n;
    assert (q - lo) * n == s - lo * n;
    assert (hi - q) * n == hi * n - s;
    NonNegativeFactor(q - lo, n);
    NonNegativeFactor(hi - q, n);
  }

  lemma NonNegativeFactor(a: real, n: real)
    requires n > 0.0 && a * n >= 0.0
    ensures a >= 0.0
  {
  }

  /** Every row of an element's data holds `width` components, as in a DPF field. */
  predicate Shaped(rows: seq<seq<real>>, width: nat)
  {
    forall i :: 0 <= i < |rows| ==> |rows[i]| == width
  }

  /** numpy's `rows[:, c]`: component `c` of every row; a component past the width raises IndexError. */
  function Column(rows: seq<seq<real>>, width: nat, c: int): (r: Result<seq<real>>)
    requires Shaped(rows, width)
    ensures r.Ok? <==> PyIndex(width, c).Some?
    ensures r.Err? ==> r.error == IndexError
    ensures r.Ok? ==> |r.value| == |rows| && forall i :: 0 <= i < |rows| ==> r.value[i] == rows[i][PyIndex(width, c).value]
  {
    match PyIndex(width, c)
    case None => Err(IndexError)
    case Some(k) => Ok(seq(|rows|, i requires 0 <= i < |rows| => rows[i][k]))
  }

  /** The average of each requested component over `rows`, in the order requested. */
  function ColumnMeans(rows: seq<seq<real>>, width: nat, columns: seq<int>): (r: Result<seq<Float>>)
    requires Shaped(rows, width)
    ensures r.Ok? <==> forall j :: 0 <= j < |columns| ==> PyIndex(width, columns[j]).Some?
    ensures r.Err? ==> r.error == IndexError
    ensures r.Ok? ==>
      |r.value| == |columns| &&
      forall j :: 0 <= j < |columns| ==> r.value[j] == Mean(Column(rows, width, columns[j]).value)
  {
    if forall j :: 0 <= j < |columns| ==> PyIndex(width, columns[j]).Some? then
      Ok(seq(|columns|, j requires 0 <= j < |columns| => Mean(Column(rows, width, columns[j]).value)))
    else Err(IndexError)
  }

  /**
   * The averages of the requested components over the rows of one ply at one spot. The
   * rows are only gathered per component, so with no components nothing past the data is
   * read; a missing layout raises AttributeError.
   */
  function SpotAverages(info: Option<ElementInfo>, values: seq<seq<real>>, width: nat, columns: seq<int>,
                        ply: int, spot: Spot): (r: Result<seq<Float>>)
    requires Shaped(values, width)
    ensures r.Ok? ==> |r.value| == |columns|
    ensures r.Ok? && columns != [] ==>
      info.Some? &&
      var rows := SpotRows(info.value, ply, spot);
      rows.Ok? && Gather(values, rows.value).Ok? && Shaped(Gather(values, rows.value).value, width) &&
      r == ColumnMeans(Gather(values, rows.value).value, width, columns)
  {
    if info.None? then Err(AttributeError)
    else
      match SpotRows(info.value, ply, spot)
      case Err(e) => Err(e)
      case Ok(rows) =>
        if columns == [] then Ok([])
        else
          match Gather(values, rows)
          case Err(e) => Err(e)
          case Ok(picked) => ColumnMeans(picked, width, columns)
  }

  /** The averages at one ply and spot of an element's data. */
  function AverageReader(info: Option<ElementInfo>, values: seq<seq<real>>, width: nat, columns: seq<int>): (int, Spot) -> Result<seq<Float>>
    requires Shaped(values, width)
  {
    (p, s) => SpotAverages(info, values, width, columns, p, s)
  }

  /** Data between two bounds averages to NaN or to a value between the same bounds. */
  lemma SpotAveragesWithin(info: Option<ElementInfo>, values: seq<seq<real>>, width: nat, columns: seq<int>,
                           ply: int, spot: Spot, j: int, lo: real, hi: real)
    requires Shaped(values, width)
    requires forall i, k :: 0 <= i < |values| && 0 <= k < width ==> lo <= values[i][k] <= hi
    requires SpotAverages(info, values, width, columns, ply, spot).Ok? && 0 <= j < |columns|
    ensures SpotAverages(info, values, width, columns, ply, spot).value[j].Num? ==>
      lo <= SpotAverages(info, values, width, columns, ply, spot).value[j].v <= hi
  {
    var rows := SpotRows(info.value, ply, spot).value;
    var picked := Gather(values, rows).value;
    var column := Column(picked, width, columns[j]).value;
    if column != [] {
      forall i | 0 <= i < |column|
        ensures lo <= column[i] <= hi
      {
        var k := PyIndex(width, columns[j]).value;
        assert column[i] == values[PyIndex(|values|, rows[i]).value][k];
      }
      MeanWithin(column, lo, hi);
    }
  }

  /** Every element of the field holds `width` components per row. */
  predicate FieldShaped(field: map<int, seq<seq<real>>>, width: nat)
  {
    forall e :: e in field ==> Shaped(field[e], width)
  }

  /**
   * The averages of element `e` of a stack: its data (an element missing from the field
   * raises ValueError), its analysis plies (KeyError), and one entry of component
   * averages per ply and spot.
   */
  function LegacyElementAverages(stack: SolidStack, infos: map<int, ElementInfo>, field: map<int, seq<seq<real>>>,
                                 width: nat, columns: seq<int>, e: int): Result<seq<seq<Float>>>
    requires FieldShaped(field, width)
  {
    if e !in field then Err(ValueError)
    else if e !in stack.elementWiseAnalysisPlies then Err(KeyError)
    else
      var info := if e in infos then Some(infos[e]) else None;
      PlyWise(AverageReader(info, field[e], width, columns), |stack.elementWiseAnalysisPlies[e]|)
  }

  /** The per-spot averages of the first `n` elements of a stack, bottom to top. */
  function LegacyStackAverages(stack: SolidStack, infos: map<int, ElementInfo>, field: map<int, seq<seq<real>>>,
                               width: nat, columns: seq<int>, n: nat): Result<seq<seq<Float>>>
    requires n <= |stack.elementIds| && FieldShaped(field, width)
  {
    if n == 0 then Ok([])
    else
      match LegacyStackAverages(stack, infos, field, width, columns, n - 1)
      case Err(e) => Err(e)
      case Ok(below) =>
        match LegacyElementAverages(stack, infos, field, width, columns, stack.elementIds[n - 1])
        case Err(e) => Err(e)
        case Ok(block) => Ok(below + block)
  }

  /** When every read gives `k` values, so does every entry. */
  lemma {:induction false} PlyWiseWidth<T>(read: (int, Spot) --> Result<seq<T>>, n: nat, k: nat)
    requires forall p, s :: read.requires(p, s)
    requires forall p, s :: read(p, s).Ok? ==> |read(p, s).value| == k
    requires PlyWise(read, n).Ok?
    ensures |PlyWise(read, n).value| == 2 * n
    ensures forall i :: 0 <= i < 2 * n ==> |PlyWise(read, n).value[i]| == k
  {
    if n > 0 {
      PlyWiseWidth(read, n - 1, k);
    }
  }

  /** Each entry of an element's averages holds one average per component. */
  lemma ElementAveragesWidth(info: Option<ElementInfo>, values: seq<seq<real>>, width: nat, columns: seq<int>, n: nat)
    requires Shaped(values, width) && PlyWise(AverageReader(info, values, width, columns), n).Ok?
    ensures |PlyWise(AverageReader(info, values, width, columns), n).value| == 2 * n
    ensures forall i :: 0 <= i < 2 * n ==> |PlyWise(AverageReader(info, values, width, columns), n).value[i]| == |columns|
  {
    var read := AverageReader(info, values, width, columns);
    forall p, s | read(p, s).Ok?
      ensures |read(p, s).value| == |columns|
    {
      assert read(p, s) == SpotAverages(info, values, width, columns, p, s);
    }
    PlyWiseWidth(read, n, |columns|);
  }

  /** Two entries, bottom and top, for every analysis ply, each with one average per component. */
  lemma {:induction false} LegacyStackAveragesShape(stack: SolidStack, infos: map<int, ElementInfo>, field: map<int, seq<seq<real>>>,
                                                    width: nat, columns: seq<int>, n: nat)
    requires n <= |stack.elementIds| && FieldShaped(field, width)
    requires LegacyStackAverages(stack, infos, field, width, columns, n).Ok?
    ensures |LegacyStackAverages(stack, infos, field, width, columns, n).value| == 2 * PlyCount(stack, n)
    ensures forall i :: 0 <= i < 2 * PlyCount(stack, n) ==>
      |LegacyStackAverages(stack, infos, field, width, columns, n).value[i]| == |columns|
  {
    if n > 0 {
      LegacyStackAveragesShape(stack, infos, field, width, columns, n - 1);
      var e := stack.elementIds[n - 1];
      var info := if e in infos then Some(infos[e]) else None;
      ElementAveragesWidth(info, field[e], width, columns, |stack.elementWiseAnalysisPlies[e]|);
    }
  }

  lemma {:induction false} LegacyStackAveragesFail(stack: SolidStack, infos: map<int, ElementInfo>, field: map<int, seq<seq<real>>>,
                                                   width: nat, columns: seq<int>, i: nat, n: nat)
    requires i <= n <= |stack.elementIds| && FieldShaped(field, width)
    requires LegacyStackAverages(stack, infos, field, width, columns, i).Err?
    ensures LegacyStackAverages(stack, infos, field, width, columns, n) == LegacyStackAverages(stack, infos, field, width, columns, i)
    decreases n - i
  {
    if i < n {
      LegacyStackAveragesFail(stack, infos, field, width, columns, i, n - 1);
    }
  }

  /** Entry `j` is the list of component `j` across all rows: the dict of lists the functions return. */
  function Transpose(entries: seq<seq<Float>>, k: nat): (r: seq<seq<Float>>)
    requires forall i :: 0 <= i < |entries| ==> |entries[i]| == k
    ensures |r| == k
    ensures forall j :: 0 <= j < k ==> |r[j]| == |entries| && forall i :: 0 <= i < |entries| ==> r[j][i] == entries[i][j]
  {
    seq(k, j requires 0 <= j < k => seq(|entries|, i requires 0 <= i < |entries| => entries[i][j]))
  }

  /** The names without repeats, in first-seen order: the keys of `{k: [] for k in names}`. */
  function FirstSeen(names: seq<string>): (r: seq<string>)
    ensures forall k :: k in r <==> k in names
    ensures forall i, j :: 0 <= i < j < |r| ==> r[i] != r[j]
  {
    if names == [] then []
    else
      var n := |names| - 1;
      var rest := FirstSeen(names[..n]);
      if names[n] in rest then rest else rest + [names[n]]
  }

  /** Distinct names are their own first-seen list. */
  lemma {:induction false} FirstSeenDistinct(names: seq<string>)
    requires forall i, j :: 0 <= i < j < |names| ==> names[i] != names[j]
    ensures FirstSeen(names) == names
  {
    if names != [] {
      var n := |names| - 1;
      FirstSeenDistinct(names[..n]);
      assert names[..n] + [names[n]] == names;
    }
  }

  /** How many positions of the list carry the name `k`. */
  function Occurrences(k: string, names: seq<string>): nat
  {
    if names == [] then 0
    else
      var n := |names| - 1;
      Occurrences(k, names[..n]) + (if names[n] == k then 1 else 0)
  }

  /** What one row appends to the list of `k`: its entries at the positions named `k`, in order. */
  function Picks(k: string, names: seq<string>, row: seq<Float>): (r: seq<Float>)
    requires |row| == |names|
    ensures |r| == Occurrences(k, names)
  {
    if names == [] then []
    else
      var n := |names| - 1;
      Picks(k, names[..n], row[..n]) + (if names[n] == k then [row[n]] else [])
  }

  /** The entries of a row form the rows of the dict of lists. */
  predicate RowsOfWidth(rows: seq<seq<Float>>, k: nat)
  {
    forall i :: 0 <= i < |rows| ==> |rows[i]| == k
  }

  /** The list of `k` once every row is appended: each row's picks, row after row. */
  function Gathered(k: string, names: seq<string>, rows: seq<seq<Float>>): seq<Float>
    requires RowsOfWidth(rows, |names|)
  {
    if rows == [] then []
    else
      var n := |rows| - 1;
      Gathered(k, names, rows[..n]) + Picks(k, names, rows[n])
  }

  /**
   * The dict of lists the through-the-thickness functions build: one key per name,
   * in first-seen order, and for every row, in order, `results[name].append(...)`
   * once per position of the name. A repeated name therefore collects the entries
   * of all its positions in one list.
   */
  function ByComponentName(names: seq<string>, rows: seq<seq<Float>>): (r: seq<(string, seq<Float>)>)
    requires RowsOfWidth(rows, |names|)
    ensures DistinctKeys(r) && KeySet(r) == (set k | k in names)
  {
    var keys := FirstSeen(names);
    var r := seq(|keys|, i requires 0 <= i < |keys| => (keys[i], Gathered(keys[i], names, rows)));
    assert forall k :: k in KeySet(r) ==> k in keys by {
      forall k | k in KeySet(r) ensures k in keys {
        var i :| 0 <= i < |r| && r[i].0 == k;
      }
    }
    assert forall i :: 0 <= i < |keys| ==> keys[i] in KeySet(r) by {
      forall i | 0 <= i < |keys| ensures keys[i] in KeySet(r) {
        assert r[i].0 == keys[i];
      }
    }
    r
  }

  /** Every key's list holds one entry per row for each position carrying its name. */
  lemma {:induction false} GatheredLength(k: string, names: seq<string>, rows: seq<seq<Float>>)
    requires RowsOfWidth(rows, |names|)
    ensures |Gathered(k, names, rows)| == |rows| * Occurrences(k, names)
  {
    if rows != [] {
      var n := |rows| - 1;
      GatheredLength(k, names, rows[..n]);
      assert |rows| * Occurrences(k, names) == n * Occurrences(k, names) + Occurrences(k, names);
    }
  }

  /** A name at exactly one position picks exactly the entry at that position. */
  lemma {:induction false} PicksSingle(names: seq<string>, row: seq<Float>, j: int)
    requires |row| == |names| && 0 <= j < |names|
    requires forall i :: 0 <= i < |names| && i != j ==> names[i] != names[j]
    ensures Picks(names[j], names, row) == [row[j]]
  {
    var n := |names| - 1;
    if j < n {
      PicksSingle(names[..n], row[..n], j);
    } else {
      PicksAbsent(names[..n], row[..n], names[j]);
    }
  }

  /** A name at no position picks nothing. */
  lemma {:induction false} PicksAbsent(names: seq<string>, row: seq<Float>, k: string)
    requires |row| == |names| && k !in names
    ensures Picks(k, names, row) == []
  {
    if names != [] {
      var n := |names| - 1;
      PicksAbsent(names[..n], row[..n], k);
    }
  }

  /** With a name at exactly one position, its list is that column of the rows. */
  lemma {:induction false} GatheredSingle(names: seq<string>, rows: seq<seq<Float>>, j: int)
    requires RowsOfWidth(rows, |names|) && 0 <= j < |names|
    requires forall i :: 0 <= i < |names| && i != j ==> names[i] != names[j]
    ensures |Gathered(names[j], names, rows)| == |rows|
    ensures forall i :: 0 <= i < |rows| ==> Gathered(names[j], names, rows)[i] == rows[i][j]
  {
    if rows != [] {
      var n := |rows| - 1;
      GatheredSingle(names, rows[..n], j);
      PicksSingle(names, rows[n], j);
    }
  }

  /** With distinct names, the dict holds each name's column, in the order of the names. */
  lemma ByComponentNameDistinct(names: seq<string>, rows: seq<seq<Float>>)
    requires RowsOfWidth(rows, |names|)
    requires forall i, j :: 0 <= i < j < |names| ==> names[i] != names[j]
    ensures |ByComponentName(names, rows)| == |names|
    ensures forall j :: 0 <= j < |names| ==> ByComponentName(names, rows)[j] == (names[j], Transpose(rows, |names|)[j])
  {
    FirstSeenDistinct(names);
    forall j | 0 <= j < |names|
      ensures Gathered(names[j], names, rows) == Transpose(rows, |names|)[j]
    {
      GatheredSingle(names, rows, j);
    }
  }

  /** The shape of the dict of lists: one list per first-seen name, `n` entries per position of the name. */
  lemma ByComponentNameShape(names: seq<string>, rows: seq<seq<Float>>, n: nat)
    requires RowsOfWidth(rows, |names|) && |rows| == n
    ensures |ByComponentName(names, rows)| == |FirstSeen(names)|
    ensures forall i :: 0 <= i < |ByComponentName(names, rows)| ==>
      ByComponentName(names, rows)[i].0 == FirstSeen(names)[i] &&
      |ByComponentName(names, rows)[i].1| == n * Occurrences(ByComponentName(names, rows)[i].0, names)
    ensures (forall i, j :: 0 <= i < j < |names| ==> names[i] != names[j]) ==>
      |ByComponentName(names, rows)| == |names| &&
      forall j :: 0 <= j < |names| ==> ByComponentName(names, rows)[j].0 == names[j] && |ByComponentName(names, rows)[j].1| == n
  {
    var keys := FirstSeen(names);
    var r := ByComponentName(names, rows);
    assert |r| == |keys|;
    forall i | 0 <= i < |r| ensures r[i].0 == keys[i] && |r[i].1| == n * Occurrences(r[i].0, names) {
      assert r[i] == (keys[i], Gathered(keys[i], names, rows));
      GatheredLength(keys[i], names, rows);
    }
    if forall i, j :: 0 <= i < j < |names| ==> names[i] != names[j] {
      DistinctShape(names, rows);
    }
  }

  /** With distinct names, one list per name, in order, one entry per row. */
  lemma DistinctShape(names: seq<string>, rows: seq<seq<Float>>)
    requires RowsOfWidth(rows, |names|)
    requires forall i, j :: 0 <= i < j < |names| ==> names[i] != names[j]
    ensures |ByComponentName(names, rows)| == |names|
    ensures forall j :: 0 <= j < |names| ==> ByComponentName(names, rows)[j].0 == names[j] && |ByComponentName(names, rows)[j].1| == |rows|
  {
    ByComponentNameDistinct(names, rows);
    var t := Transpose(rows, |names|);
    assert forall j :: 0 <= j < |names| ==> |t[j]| == |rows|;
  }

  /** A name given twice collects, row after row, both of its positions' entries in one list. */
  lemma RepeatedNameMerged(k: string, rows: seq<seq<Float>>)
    requires RowsOfWidth(rows, 2)
    ensures ByComponentName([k, k], rows) == [(k, Gathered(k, [k, k], rows))]
    ensures |Gathered(k, [k, k], rows)| == 2 * |rows|
  {
    TwiceSeenOnce(k);
    var r := ByComponentName([k, k], rows);
    assert |r| == 1 && r[0] == (k, Gathered(k, [k, k], rows));
    GatheredLength(k, [k, k], rows);
  }

  /** A name given twice is one key, at two positions. */
  lemma TwiceSeenOnce(k: string)
    ensures FirstSeen([k, k]) == [k]
    ensures Occurrences(k, [k, k]) == 2
  {
    assert [k, k][..1] == [k];
    assert [k][..0] == [];
    assert FirstSeen([k]) == [k];
    assert Occurrences(k, [k]) == 1;
  }

  /**
   * `get_through_the_thickness_results`: for each named component, its average at the
   * bottom and top of every ply of every element of the stack. The component at position
   * `j` of the list is read from column `j` of the field; a name given at several
   * positions collects the entries of all of them in its one list.
   */
  function LegacyThroughTheThicknessResults(stack: SolidStack, infos: map<int, ElementInfo>, field: map<int, seq<seq<real>>>,
                                            width: nat, componentNames: seq<string>): (r: Result<seq<(string, seq<Float>)>>)
    requires FieldShaped(field, width)
    ensures r.Ok? ==>
      |r.value| == |FirstSeen(componentNames)| &&
      forall i :: 0 <= i < |r.value| ==>
        r.value[i].0 == FirstSeen(componentNames)[i] &&
        |r.value[i].1| == (2 * PlyCount(stack, |stack.elementIds|)) * Occurrences(r.value[i].0, componentNames)
    ensures r.Ok? && (forall i, j :: 0 <= i < j < |componentNames| ==> componentNames[i] != componentNames[j]) ==>
      |r.value| == |componentNames| &&
      forall j :: 0 <= j < |componentNames| ==>
        r.value[j].0 == componentNames[j] && |r.value[j].1| == 2 * PlyCount(stack, |stack.elementIds|)
  {
    var columns := Range(|componentNames|);
    match LegacyStackAverages(stack, infos, field, width, columns, |stack.elementIds|)
    case Err(e) => Err(e)
    case Ok(entries) =>
      LegacyStackAveragesShape(stack, infos, field, width, columns, |stack.elementIds|);
      ByComponentNameShape(componentNames, entries, 2 * PlyCount(stack, |stack.elementIds|));
      Ok(ByComponentName(componentNames, entries))
  }

  /** The loop of `get_through_the_thickness_results` over the elements of the stack. */
  method CollectLegacyAverages(stack: SolidStack, infos: map<int, ElementInfo>, field: map<int, seq<seq<real>>>,
                               width: nat, columns: seq<int>) returns (r: Result<seq<seq<Float>>>)
    requires FieldShaped(field, width)
    ensures r == LegacyStackAverages(stack, infos, field, width, columns, |stack.elementIds|)
  {
    var results: seq<seq<Float>> := [];
    var i := 0;
    while i < |stack.elementIds|
      invariant 0 <= i <= |stack.elementIds|
      invariant LegacyStackAverages(stack, infos, field, width, columns, i) == Ok(results)
    {
      var block := CollectLegacyElementAverages(stack, infos, field, width, columns, stack.elementIds[i]);
      LegacyStackAveragesStep(stack, infos, field, width, columns, i, results, block);
      if block.Err? {
        LegacyStackAveragesFail(stack, infos, field, width, columns, i + 1, |stack.elementIds|);
        return Err(block.error);
      }
      results := results + block.value;
      i := i + 1;
    }
    return Ok(results);
  }

  /** One more element appends its averages, or fails the stack with its error. */
  lemma LegacyStackAveragesStep(stack: SolidStack, infos: map<int, ElementInfo>, field: map<int, seq<seq<real>>>,
                                width: nat, columns: seq<int>, i: nat, below: seq<seq<Float>>, block: Result<seq<seq<Float>>>)
    requires i < |stack.elementIds| && FieldShaped(field, width)
    requires LegacyStackAverages(stack, infos, field, width, columns, i) == Ok(below)
    requires block == LegacyElementAverages(stack, infos, field, width, columns, stack.elementIds[i])
    ensures LegacyStackAverages(stack, infos, field, width, columns, i + 1) ==
      if block.Err? then Err(block.error) else Ok(below + block.value)
  {
  }

  /** The averages of one element of a stack, as LegacyElementAverages gives them. */
  method CollectLegacyElementAverages(stack: SolidStack, infos: map<int, ElementInfo>, field: map<int, seq<seq<real>>>,
                                      width: nat, columns: seq<int>, e: int) returns (r: Result<seq<seq<Float>>>)
    requires FieldShaped(field, width)
    ensures r == LegacyElementAverages(stack, infos, field, width, columns, e)
  {
    if e !in field {
      return Err(ValueError);
    }
    var values := field[e];
    if e !in stack.elementWiseAnalysisPlies {
      return Err(KeyError);
    }
    var info := if e in infos then Some(infos[e]) else None;
    r := CollectPlyWise(AverageReader(info, values, width, columns), |stack.elementWiseAnalysisPlies[e]|);
  }

  /** `get_through_the_thickness_results` as a loop, giving the component lists of the function above. */
  method GetThroughTheThicknessResults(stack: SolidStack, infos: map<int, ElementInfo>, field: map<int, seq<seq<real>>>,
                                       width: nat, componentNames: seq<string>) returns (r: Result<seq<(string, seq<Float>)>>)
    requires FieldShaped(field, width)
    ensures r == LegacyThroughTheThicknessResults(stack, infos, field, width, componentNames)
  {
    var columns := Range(|componentNames|);
    var entries := CollectLegacyAverages(stack, infos, field, width, columns);
    if entries.Err? {
      return Err(entries.error);
    }
    LegacyStackAveragesShape(stack, infos, field, width, columns, |stack.elementIds|);
    r := Ok(ByComponentName(componentNames, entries.value));
  }
}
