// The helpers behind the sampling-point classes: reading the operator's JSON
// result, the result indices of selected spots, the offsets of those spots
// (optionally with the core plies rescaled in place) and the critical failure
// of every ply.
module SamplingPointHelpers {
  import opened Common
  import opened Layout
  import opened SamplingPointTypes

  // ----- get_data_from_sp_results -----

  /** Descend through nested dicts along `path`; a missing key raises RuntimeError, a non-dict has no `keys`. */
  function Follow(data: Json, path: seq<string>): (r: Result<Json>)
    ensures path == [] ==> r == Ok(data)
    ensures r.Err? ==> r.error == RuntimeError || r.error == AttributeError
    ensures path != [] && r.Ok? ==> data.JObj? && path[0] in KeySet(data.entries)
    decreases |path|
  {
    if path == [] then Ok(data)
    else match data
      case JObj(entries) =>
        (match Lookup(entries, path[0])
         case Some(inner) => Follow(inner, path[1..])
         case None => Err(RuntimeError))
      case _ => Err(AttributeError)
  }

  /** Descending along `p + q` is descending along `p`, then along `q`. */
  lemma {:induction false} FollowConcat(data: Json, p: seq<string>, q: seq<string>)
    ensures Follow(data, p + q) == (match Follow(data, p) case Ok(inner) => Follow(inner, q) case Err(e) => Err(e))
    decreases |p|
  {
    if p != [] {
      assert (p + q)[0] == p[0];
      assert (p + q)[1..] == p[1..] + q;
      if data.JObj? && Lookup(data.entries, p[0]).Some? {
        FollowConcat(Lookup(data.entries, p[0]).value, p[1..], q);
      }
    } else {
      assert p + q == q;
    }
  }

  /** `data[k0][k1]...` on parsed JSON: a missing key raises KeyError, subscripting a non-dict TypeError. */
  function Subscript(data: Json, path: seq<string>): (r: Result<Json>)
    ensures path == [] ==> r == Ok(data)
    ensures r.Err? ==> r.error == KeyError || r.error == TypeError
    decreases |path|
  {
    if path == [] then Ok(data)
    else match data
      case JObj(entries) =>
        (match Lookup(entries, path[0])
         case Some(inner) => Subscript(inner, path[1..])
         case None => Err(KeyError))
      case _ => Err(TypeError)
  }

  /**
   * Plain subscripting reaches the same value as `get_data_from_sp_results`
   * wherever either succeeds; where a key is missing it raises KeyError
   * instead of RuntimeError.
   */
  lemma {:induction false} SubscriptFollow(data: Json, path: seq<string>)
    ensures Subscript(data, path).Ok? <==> Follow(data, path).Ok?
    ensures Subscript(data, path).Ok? ==> Subscript(data, path) == Follow(data, path)
    ensures Subscript(data, path) == Err(KeyError) <==> Follow(data, path) == Err(RuntimeError)
    decreases |path|
  {
    if path != [] && data.JObj? && Lookup(data.entries, path[0]).Some? {
      SubscriptFollow(Lookup(data.entries, path[0]).value, path[1..]);
    }
  }

  /** `get_data_from_sp_results`: None or no results raise; otherwise the value under `results[0]` at `path`. */
  function DataFromSpResults(path: seq<string>, results: Option<seq<Json>>): (r: Result<Json>)
    ensures results.None? || results.value == [] ==> r == Err(RuntimeError)
    ensures results.Some? && results.value != [] ==> r == Follow(results.value[0], path)
  {
    match results
    case None => Err(RuntimeError)
    case Some(rs) => if rs == [] then Err(RuntimeError) else Follow(rs[0], path)
  }

  // ----- get_analysis_plies_from_sp -----

  /** The Python type each field of an analysis ply is converted to. */
  datatype FieldType = FloatType | IntType | StrType | BoolType

  function PlyFieldType(key: string): Option<FieldType>
  {
    if key == "angle" || key == "thickness" then Some(FloatType)
    else if key == "global_ply_number" then Some(IntType)
    else if key == "id" || key == "material" then Some(StrType)
    else if key == "is_core" then Some(BoolType)
    else None
  }

  /** Python's truth value of a JSON value. */
  predicate Truthy(v: Json)
  {
    match v
    case JNull => false
    case JBool(b) => b
    case JNum(n) => n != 0.0
    case JStr(s) => s != ""
    case JArr(items) => items != []
    case JObj(entries) => entries != []
  }

  /**
   * The conversion of one value to its declared type. Parsing number text and
   * the `str` of a non-string are the parameters `parseReal`, `parseInt` and `render`.
   */
  function Convert(t: FieldType, v: Json, parseReal: string -> Option<real>, parseInt: string -> Option<int>,
                   render: Json -> string): (r: Result<Json>)
    ensures r.Ok? && t == FloatType ==> r.value.JNum?
    ensures r.Ok? && t == IntType ==> r.value.JNum? && r.value.n == r.value.n.Floor as real
    ensures r.Ok? && t == StrType ==> r.value.JStr?
    ensures t == BoolType ==> r == Ok(JBool(Truthy(v)))
    ensures t == StrType && v.JStr? ==> r == Ok(v)
  {
    match t
    case BoolType => Ok(JBool(Truthy(v)))
    case StrType => if v.JStr? then Ok(v) else Ok(JStr(render(v)))
    case FloatType =>
      (match v
       case JNum(n) => Ok(JNum(n))
       case JBool(b) => Ok(JNum(if b then 1.0 else 0.0))
       case JStr(s) => if parseReal(s).Some? then Ok(JNum(parseReal(s).value)) else Err(ValueError)
       case _ => Err(TypeError))
    case IntType =>
      (match v
       case JNum(n) => Ok(JNum(Trunc(n) as real))
       case JBool(b) => Ok(JNum(if b then 1.0 else 0.0))
       case JStr(s) => if parseInt(s).Some? then Ok(JNum(parseInt(s).value as real)) else Err(ValueError)
       case _ => Err(TypeError))
  }

  /** The dict comprehension over one ply's items, in their order: the first failing item raises. */
  function ConvertPly(items: seq<(string, Json)>, parseReal: string -> Option<real>, parseInt: string -> Option<int>,
                      render: Json -> string): (r: Result<map<string, Json>>)
    ensures r.Ok? ==> r.value.Keys == KeySet(items)
  {
    if items == [] then Ok(map[])
    else
      var n := |items| - 1;
      var (k, v) := items[n];
      match ConvertPly(items[..n], parseReal, parseInt, render)
      case Err(e) => Err(e)
      case Ok(m) =>
        match PlyFieldType(k)
        case None => Err(KeyError)
        case Some(t) =>
          match Convert(t, v, parseReal, parseInt, render)
          case Err(e) => Err(e)
          case Ok(x) =>
            KeySetSnoc(items);
            Ok(m[k := x])
  }



  /** A ply with a field that has no declared type raises. */
  lemma {:induction false} ConvertPlyRejectsUnknownKey(items: seq<(string, Json)>, parseReal: string -> Option<real>,
                                                       parseInt: string -> Option<int>, render: Json -> string, i: int)
    requires 0 <= i < |items| && PlyFieldType(items[i].0).None?
    ensures ConvertPly(items, parseReal, parseInt, render).Err?
  {
    var n := |items| - 1;
    if i < n {
      assert items[..n][i] == items[i];
      ConvertPlyRejectsUnknownKey(items[..n], parseReal, parseInt, render, i);
    }
  }

  /** A converted ply keeps each field at its declared type; `is_core` becomes a bool. */
  lemma {:induction false} ConvertedFieldsTyped(items: seq<(string, Json)>, parseReal: string -> Option<real>,
                                                parseInt: string -> Option<int>, render: Json -> string, key: string)
    requires ConvertPly(items, parseReal, parseInt, render).Ok?
    requires key in ConvertPly(items, parseReal, parseInt, render).value
    ensures var v := ConvertPly(items, parseReal, parseInt, render).value[key];
      && (PlyFieldType(key) == Some(BoolType) ==> v.JBool?)
      && (PlyFieldType(key) == Some(FloatType) ==> v.JNum?)
      && (PlyFieldType(key) == Some(StrType) ==> v.JStr?)
  {
    var n := |items| - 1;
    var (k, v) := items[n];
    if key != k {
      assert key in ConvertPly(items[..n], parseReal, parseInt, render).value;
      ConvertedFieldsTyped(items[..n], parseReal, parseInt, render, key);
    }
  }

  /**
   * What iterating a parsed JSON value yields: a list its items, a dict its
   * keys, a string its characters; `len` of a number, a bool or None raises
   * TypeError.
   */
  function Iterate(v: Json): (r: Result<seq<Json>>)
    ensures r.Err? <==> v.JNull? || v.JBool? || v.JNum?
    ensures r.Err? ==> r.error == TypeError
    ensures v.JArr? ==> r == Ok(v.items)
    ensures v.JObj? ==> r.Ok? && |r.value| == |v.entries|
    ensures v.JObj? ==> forall i :: 0 <= i < |v.entries| ==> r.value[i] == JStr(v.entries[i].0)
    ensures v.JStr? ==> r.Ok? && |r.value| == |v.s|
    ensures v.JStr? ==> forall i :: 0 <= i < |v.s| ==> r.value[i] == JStr([v.s[i]])
  {
    match v
    case JArr(items) => Ok(items)
    case JObj(entries) => Ok(seq(|entries|, i requires 0 <= i < |entries| => JStr(entries[i].0)))
    case JStr(s) => Ok(seq(|s|, i requires 0 <= i < |s| => JStr([s[i]])))
    case _ => Err(TypeError)
  }

  /**
   * The raw plies: `results[0]["layup"]["analysis_plies"]`, iterated. No
   * results raise RuntimeError, a missing key KeyError, subscripting a non-dict
   * TypeError, and `len` of a scalar TypeError.
   */
  function RawPlies(results: seq<Json>): (r: Result<seq<Json>>)
    ensures results == [] ==> r == Err(RuntimeError)
    ensures results != [] && Subscript(results[0], ["layup", "analysis_plies"]).Err? ==>
      r == Err(Subscript(results[0], ["layup", "analysis_plies"]).error)
    ensures results != [] && Subscript(results[0], ["layup", "analysis_plies"]).Ok? ==>
      r == Iterate(Subscript(results[0], ["layup", "analysis_plies"]).value)
    ensures r.Err? ==> r.error == RuntimeError || r.error == KeyError || r.error == TypeError
  {
    if results == [] then Err(RuntimeError)
    else match Subscript(results[0], ["layup", "analysis_plies"])
      case Err(e) => Err(e)
      case Ok(v) => Iterate(v)
  }

  /** Plies that are not dicts have no `items`: converting any of them raises AttributeError. */
  lemma {:induction false} ConvertNonDictPlies(raw: seq<Json>, parseReal: string -> Option<real>,
                                               parseInt: string -> Option<int>, render: Json -> string)
    requires raw != [] && forall i :: 0 <= i < |raw| ==> !raw[i].JObj?
    ensures ConvertPlies(raw, parseReal, parseInt, render) == Err(AttributeError)
  {
    var n := |raw| - 1;
    if n > 0 {
      ConvertNonDictPlies(raw[..n], parseReal, parseInt, render);
    }
  }

  /**
   * A dict or a string under `analysis_plies` gets past the length check but
   * its entries are strings, so the conversion raises AttributeError.
   */
  lemma DictOrStringPliesRaise(results: seq<Json>, parseReal: string -> Option<real>,
                               parseInt: string -> Option<int>, render: Json -> string)
    requires results != [] && Subscript(results[0], ["layup", "analysis_plies"]).Ok?
    requires Subscript(results[0], ["layup", "analysis_plies"]).value.JObj? ==>
      Subscript(results[0], ["layup", "analysis_plies"]).value.entries != []
    requires Subscript(results[0], ["layup", "analysis_plies"]).value.JStr? ==>
      Subscript(results[0], ["layup", "analysis_plies"]).value.s != []
    requires Subscript(results[0], ["layup", "analysis_plies"]).value.JObj? ||
      Subscript(results[0], ["layup", "analysis_plies"]).value.JStr?
    ensures RawPlies(results).Ok? && RawPlies(results).value != []
    ensures ConvertPlies(RawPlies(results).value, parseReal, parseInt, render) == Err(AttributeError)
  {
    ConvertNonDictPlies(RawPlies(results).value, parseReal, parseInt, render);
  }

  /** The conversion of every ply, in order; the first failure raises. */
  function ConvertPlies(raw: seq<Json>, parseReal: string -> Option<real>, parseInt: string -> Option<int>,
                        render: Json -> string): Result<seq<map<string, Json>>>
  {
    if raw == [] then Ok([])
    else
      var n := |raw| - 1;
      match ConvertPlies(raw[..n], parseReal, parseInt, render)
      case Err(e) => Err(e)
      case Ok(plies) =>
        match raw[n]
        case JObj(entries) =>
          (match ConvertPly(entries, parseReal, parseInt, render)
           case Err(e) => Err(e)
           case Ok(ply) => Ok(plies + [ply]))
        case _ => Err(AttributeError)
  }

  /** `get_analysis_plies_from_sp`: the plies from bottom to top, each field converted to its declared type. */
  method AnalysisPliesFromSp(results: seq<Json>, parseReal: string -> Option<real>, parseInt: string -> Option<int>,
                             render: Json -> string) returns (r: Result<seq<map<string, Json>>>)
    ensures results == [] ==> r == Err(RuntimeError)
    ensures RawPlies(results) == Ok([]) ==> r == Err(RuntimeError)
    ensures RawPlies(results).Err? ==> r == Err(RawPlies(results).error)
    ensures RawPlies(results).Ok? && RawPlies(results).value != [] ==>
      r == ConvertPlies(RawPlies(results).value, parseReal, parseInt, render)
  {
    var raw := RawPlies(results);
    if raw.Err? {
      return Err(raw.error);
    }
    if raw.value == [] {
      return Err(RuntimeError);
    }
    var rawData := raw.value;
    var plies: seq<map<string, Json>> := [];
    var i := 0;
    while i < |rawData|
      invariant 0 <= i <= |rawData|
      invariant ConvertPlies(rawData[..i], parseReal, parseInt, render) == Ok(plies)
    {
      ConvertPliesStep(rawData, i, parseReal, parseInt, render);
      if !rawData[i].JObj? {
        ConvertPliesPropagatesError(rawData, i + 1, parseReal, parseInt, render);
        return Err(AttributeError);
      }
      var ply := ConvertPly(rawData[i].entries, parseReal, parseInt, render);
      if ply.Err? {
        ConvertPliesPropagatesError(rawData, i + 1, parseReal, parseInt, render);
        return Err(ply.error);
      }
      plies := plies + [ply.value];
      i := i + 1;
    }
    assert rawData[..i] == rawData;
    return Ok(plies);
  }

  /** Converting one more raw ply appends it, or raises what its conversion raises. */
  lemma ConvertPliesStep(raw: seq<Json>, i: int, parseReal: string -> Option<real>,
                         parseInt: string -> Option<int>, render: Json -> string)
    requires 0 <= i < |raw|
    ensures ConvertPlies(raw[..i + 1], parseReal, parseInt, render) ==
      match ConvertPlies(raw[..i], parseReal, parseInt, render)
      case Err(e) => Err(e)
      case Ok(plies) =>
        match raw[i]
        case JObj(entries) =>
          (match ConvertPly(entries, parseReal, parseInt, render)
           case Err(e) => Err(e)
           case Ok(ply) => Ok(plies + [ply]))
        case _ => Err(AttributeError)
  {
    assert raw[..i + 1][..i] == raw[..i];
  }

  lemma {:induction false} ConvertPliesPropagatesError(raw: seq<Json>, i: int, parseReal: string -> Option<real>,
                                                       parseInt: string -> Option<int>, render: Json -> string)
    requires 0 <= i <= |raw| && ConvertPlies(raw[..i], parseReal, parseInt, render).Err?
    ensures ConvertPlies(raw, parseReal, parseInt, render) == ConvertPlies(raw[..i], parseReal, parseInt, render)
    decreases |raw| - i
  {
    if i < |raw| {
      assert raw[..i + 1][..i] == raw[..i];
      ConvertPliesPropagatesError(raw, i + 1, parseReal, parseInt, render);
    } else {
      assert raw[..i] == raw;
    }
  }

  /** Converting the plies keeps their number. */
  lemma {:induction false} ConvertPliesLength(raw: seq<Json>, parseReal: string -> Option<real>,
                                              parseInt: string -> Option<int>, render: Json -> string)
    requires ConvertPlies(raw, parseReal, parseInt, render).Ok?
    ensures |ConvertPlies(raw, parseReal, parseInt, render).value| == |raw|
  {
    if raw != [] {
      ConvertPliesLength(raw[..|raw| - 1], parseReal, parseInt, render);
    }
  }

  /** Ply `i` of the converted list comes from raw ply `i` and has its keys. */
  lemma {:induction false} ConvertPliesAt(raw: seq<Json>, parseReal: string -> Option<real>,
                                          parseInt: string -> Option<int>, render: Json -> string, i: int)
    requires ConvertPlies(raw, parseReal, parseInt, render).Ok? && 0 <= i < |raw|
    ensures raw[i].JObj? && i < |ConvertPlies(raw, parseReal, parseInt, render).value|
      && ConvertPlies(raw, parseReal, parseInt, render).value[i].Keys == KeySet(raw[i].entries)
  {
    var n := |raw| - 1;
    ConvertPliesLength(raw[..n], parseReal, parseInt, render);
    if i < n {
      ConvertPliesAt(raw[..n], parseReal, parseInt, render, i);
      assert raw[..n][i] == raw[i];
    }
  }

  // ----- get_indices_from_sp -----

  predicate Ascending(s: seq<int>)
  {
    forall i, j :: 0 <= i < j < |s| ==> s[i] <= s[j]
  }

  /** `list.sort()` on integers: insertion sort. */
  function SortInts(s: seq<int>): seq<int>
  {
    if s == [] then [] else InsertSorted(SortInts(s[1..]), s[0])
  }

  function InsertSorted(s: seq<int>, x: int): (r: seq<int>)
    ensures |r| == |s| + 1
    ensures r[0] == (if |s| > 0 && s[0] < x then s[0] else x)
  {
    if s == [] || x <= s[0] then [x] + s else [s[0]] + InsertSorted(s[1..], x)
  }

  /** Inserting adds exactly `x`. */
  lemma {:induction false} InsertSortedPermutes(s: seq<int>, x: int)
    ensures multiset(InsertSorted(s, x)) == multiset(s) + multiset{x} && |InsertSorted(s, x)| == |s| + 1
  {
    if s != [] && x > s[0] {
      InsertSortedPermutes(s[1..], x);
      assert s == [s[0]] + s[1..];
    }
  }

  /** Inserting into an ascending sequence keeps it ascending. */
  lemma {:induction false} InsertSortedAscending(s: seq<int>, x: int)
    requires Ascending(s)
    ensures Ascending(InsertSorted(s, x))
  {
    var r := InsertSorted(s, x);
    if s == [] || x <= s[0] {
      forall i, j | 0 <= i < j < |r| ensures r[i] <= r[j] {
        if i > 0 { assert r[i] == s[i - 1] && r[j] == s[j - 1]; }
        else if j > 0 { assert r[j] == s[j - 1] && s[0] <= s[j - 1]; }
      }
    } else {
      var rest := InsertSorted(s[1..], x);
      InsertSortedAscending(s[1..], x);
      assert s[0] <= rest[0];
      forall i, j | 0 <= i < j < |r| ensures r[i] <= r[j] {
        if i > 0 { assert r[i] == rest[i - 1] && r[j] == rest[j - 1]; }
        else { assert r[j] == rest[j - 1] && rest[0] <= rest[j - 1]; }
      }
    }
  }

  /** The sorted list is a permutation of the input. */
  lemma {:induction false} SortIntsPermutes(s: seq<int>)
    ensures multiset(SortInts(s)) == multiset(s)
  {
    if s != [] {
      SortIntsPermutes(s[1..]);
      InsertSortedPermutes(SortInts(s[1..]), s[0]);
      assert s == [s[0]] + s[1..];
    }
  }

  /** The sorted list is ascending. */
  lemma {:induction false} SortIntsAscending(s: seq<int>)
    ensures Ascending(SortInts(s))
  {
    if s != [] {
      SortIntsAscending(s[1..]);
      InsertSortedAscending(SortInts(s[1..]), s[0]);
    }
  }

  /** `[interface_indices[v] for v in spots]`: an unmapped spot raises KeyError. */
  function SpotIndices(interfaceIndices: map<Spot, int>, spots: seq<Spot>): (r: Result<seq<int>>)
    ensures r.Err? <==> exists i :: 0 <= i < |spots| && spots[i] !in interfaceIndices
    ensures r.Err? ==> r.error == KeyError
    ensures r.Ok? ==> |r.value| == |spots| && forall i :: 0 <= i < |spots| ==> r.value[i] == interfaceIndices[spots[i]]
  {
    if forall i :: 0 <= i < |spots| ==> spots[i] in interfaceIndices then
      Ok(seq(|spots|, i requires 0 <= i < |spots| => interfaceIndices[spots[i]]))
    else Err(KeyError)
  }

  /** The indices of plies `0 .. nPlies - 1`, each ply offset by `spotsPerPly`. */
  function PlyIndices(perPly: seq<int>, nPlies: int, spotsPerPly: int): seq<int>
  {
    if nPlies <= 0 then []
    else PlyIndices(perPly, nPlies - 1, spotsPerPly) + seq(|perPly|, j requires 0 <= j < |perPly| => (nPlies - 1) * spotsPerPly + perPly[j])
  }

  lemma MulMonotone(a: int, b: int, w: int)
    requires a <= b && w >= 0
    ensures a * w <= b * w
  {
    assert b * w - a * w == (b - a) * w;
  }

  lemma {:induction false} PlyIndicesLength(perPly: seq<int>, nPlies: int, spotsPerPly: int)
    requires nPlies >= 0
    ensures |PlyIndices(perPly, nPlies, spotsPerPly)| == nPlies * |perPly|
  {
    if nPlies > 0 {
      PlyIndicesLength(perPly, nPlies - 1, spotsPerPly);
      assert (nPlies - 1) * |perPly| + |perPly| == nPlies * |perPly|;
    }
  }

  /** Ply `p`'s entry for the `j`-th selected spot sits at `p * |perPly| + j` and is `p * spotsPerPly + perPly[j]`. */
  lemma {:induction false} PlyIndexAt(perPly: seq<int>, nPlies: int, spotsPerPly: int, p: int, j: int)
    requires 0 <= p < nPlies && 0 <= j < |perPly|
    ensures 0 <= p * |perPly| + j < nPlies * |perPly| == |PlyIndices(perPly, nPlies, spotsPerPly)|
    ensures PlyIndices(perPly, nPlies, spotsPerPly)[p * |perPly| + j] == p * spotsPerPly + perPly[j]
  {
    var w := |perPly|;
    PlyIndicesLength(perPly, nPlies - 1, spotsPerPly);
    PlyIndicesLength(perPly, nPlies, spotsPerPly);
    MulMonotone(0, p, w);
    if p < nPlies - 1 {
      MulMonotone(p, nPlies - 2, w);
      assert (nPlies - 2) * w + w == (nPlies - 1) * w;
      PlyIndexAt(perPly, nPlies - 1, spotsPerPly, p, j);
    }
  }

  /**
   * `get_indices_from_sp`: for each ply from the bottom, the indices of the
   * selected spots in ascending order.
   */
  method IndicesFromSp(interfaceIndices: map<Spot, int>, nPlies: int, spotsPerPly: int, spots: seq<Spot>)
    returns (r: Result<seq<int>>)
    ensures r.Err? <==> exists i :: 0 <= i < |spots| && spots[i] !in interfaceIndices
    ensures r.Err? ==> r.error == KeyError
    ensures r.Ok? ==> r.value == PlyIndices(SortInts(SpotIndices(interfaceIndices, spots).value), nPlies, spotsPerPly)
  {
    var lookups := SpotIndices(interfaceIndices, spots);
    if lookups.Err? {
      return Err(KeyError);
    }
    var plyWise := SortInts(lookups.value);
    var indices: seq<int> := [];
    var p := 0;
    while p < nPlies
      invariant 0 <= p <= (if nPlies < 0 then 0 else nPlies)
      invariant indices == PlyIndices(plyWise, p, spotsPerPly)
    {
      indices := indices + seq(|plyWise|, j requires 0 <= j < |plyWise| => p * spotsPerPly + plyWise[j]);
      p := p + 1;
    }
    assert nPlies <= 0 ==> p == 0;
    return Ok(indices);
  }

  /** The interface map of a three-spot result: bottom, middle, top. */
  function ThreeSpotInterfaces(): map<Spot, int>
  {
    map[Bottom := 0, Middle := 1, Top := 2]
  }

  lemma SortTwoZeroOne()
    ensures SortInts([2, 0, 1]) == [0, 1, 2]
  {
    assert [2, 0, 1][1..] == [0, 1];
    assert [0, 1][1..] == [1];
    assert [1][1..] == [];
    assert SortInts([1]) == InsertSorted([], 1) == [1];
    assert SortInts([0, 1]) == InsertSorted([1], 0) == [0, 1];
    assert InsertSorted([], 2) == [2];
    assert InsertSorted([1], 2) == [1] + [2];
    assert InsertSorted([0, 1], 2) == [0] + [1, 2];
  }

  /** With all three spots selected, the indices of two plies are every row, in order. */
  lemma AllSpotsOfTwoPlies()
    ensures PlyIndices(SortInts(SpotIndices(ThreeSpotInterfaces(), [Top, Bottom, Middle]).value), 2, 3) == [0, 1, 2, 3, 4, 5]
  {
    var looked := SpotIndices(ThreeSpotInterfaces(), [Top, Bottom, Middle]).value;
    assert looked == [2, 0, 1];
    SortTwoZeroOne();
    var perPly := [0, 1, 2];
    assert PlyIndices(perPly, 0, 3) == [];
    assert PlyIndices(perPly, 1, 3) == [0, 1, 2];
    assert PlyIndices(perPly, 2, 3) == [0, 1, 2] + [3, 4, 5];
  }

  /** Selecting the top spot of a three-spot result gives the last row of every ply. */
  lemma TopSpotOfEveryPly(nPlies: int)
    requires nPlies >= 0
    ensures var r := PlyIndices(SortInts(SpotIndices(ThreeSpotInterfaces(), [Top]).value), nPlies, 3);
      |r| == nPlies && forall p :: 0 <= p < nPlies ==> r[p] == 3 * p + 2
  {
    var perPly := SortInts(SpotIndices(ThreeSpotInterfaces(), [Top]).value);
    assert perPly == [2];
    PlyIndicesLength(perPly, nPlies, 3);
    forall p | 0 <= p < nPlies ensures PlyIndices(perPly, nPlies, 3)[p] == 3 * p + 2 {
      PlyIndexAt(perPly, nPlies, 3, p, 0);
    }
  }

  /** The interface map of a two-spot result: bottom and top. */
  function TwoSpotInterfaces(): map<Spot, int>
  {
    map[Bottom := 0, Top := 1]
  }

  /** Selecting the top spot of a two-spot result gives the second row of every ply. */
  lemma TopSpotOfTwoSpotPlies(nPlies: int)
    requires nPlies >= 0
    ensures var r := PlyIndices(SortInts(SpotIndices(TwoSpotInterfaces(), [Top]).value), nPlies, 2);
      |r| == nPlies && forall p :: 0 <= p < nPlies ==> r[p] == 2 * p + 1
  {
    var perPly := SortInts(SpotIndices(TwoSpotInterfaces(), [Top]).value);
    assert perPly == [1];
    PlyIndicesLength(perPly, nPlies, 2);
    forall p | 0 <= p < nPlies ensures PlyIndices(perPly, nPlies, 2)[p] == 2 * p + 1 {
      PlyIndexAt(perPly, nPlies, 2, p, 0);
    }
  }

  // ----- get_offsets_by_spots_from_sp -----

  /** Spot `i` of ply `p` is row `p * spotsPerPly + i`, inside the first `n` plies. */
  lemma SlotInRange(p: int, i: int, spotsPerPly: int, n: int)
    requires 0 <= p < n && 0 <= i < spotsPerPly
    ensures 0 <= p * spotsPerPly + i < (p + 1) * spotsPerPly <= n * spotsPerPly
    ensures (p * spotsPerPly + i) / spotsPerPly == p && (p * spotsPerPly + i) % spotsPerPly == i
  {
    MulMonotone(p + 1, n, spotsPerPly);
    MulMonotone(0, p, spotsPerPly);
    DivUnique(p * spotsPerPly + i, spotsPerPly, p, i);
  }

  /** `offsets[hi] - offsets[lo]`, times `factor` for a core ply. */
  function ScaledSpan(offsets: seq<real>, lo: int, hi: int, isCore: bool, factor: real): real
    requires 0 <= lo < |offsets| && 0 <= hi < |offsets|
  {
    var th := offsets[hi] - offsets[lo];
    if isCore then th * factor else th
  }

  /** Ply `q`'s thickness: its last minus its first offset, scaled when it is a core; 0 past the data. */
  function PlySpan(offsets: seq<real>, isCore: seq<bool>, spotsPerPly: int, factor: real, q: int): real
  {
    if 0 <= q < |isCore| && 0 <= q * spotsPerPly <= (q + 1) * spotsPerPly - 1 < |offsets| then
      ScaledSpan(offsets, q * spotsPerPly, (q + 1) * spotsPerPly - 1, isCore[q], factor)
    else 0.0
  }

  /** Every ply's thickness. */
  function Thicknesses(offsets: seq<real>, isCore: seq<bool>, spotsPerPly: int, factor: real): (r: seq<real>)
    ensures |r| == |isCore|
  {
    seq(|isCore|, q => PlySpan(offsets, isCore, spotsPerPly, factor, q))
  }

  /** Where ply `p` starts once the plies below it are rewritten: the first offset plus their thicknesses. */
  function PlyBase(first: real, thicknesses: seq<real>, p: int): real
    requires 0 <= p <= |thicknesses|
  {
    if p == 0 then first else PlyBase(first, thicknesses, p - 1) + thicknesses[p - 1]
  }

  /** The distance between neighbouring spots of ply `p`. */
  function Step(thicknesses: seq<real>, spotsPerPly: int, p: int): real
    requires spotsPerPly >= 2 && 0 <= p < |thicknesses|
  {
    thicknesses[p] / (spotsPerPly - 1) as real
  }

  /** `spotsPerPly - 1` steps make up the thickness. */
  lemma StepsMakeThickness(thicknesses: seq<real>, spotsPerPly: int, p: int)
    requires spotsPerPly >= 2 && 0 <= p < |thicknesses|
    ensures Step(thicknesses, spotsPerPly, p) * (spotsPerPly - 1) as real == thicknesses[p]
  {
  }

  /** The spots of one ply, `step` apart from `base`. */
  function PlySpots(base: real, step: real, spotsPerPly: nat): (r: seq<real>)
  {
    seq(spotsPerPly, i requires 0 <= i < spotsPerPly => base + step * i as real)
  }

  /** The rewritten offsets of the first `p` plies. */
  function RescaledPlies(first: real, thicknesses: seq<real>, spotsPerPly: int, p: int): seq<real>
    requires spotsPerPly >= 2 && 0 <= p <= |thicknesses|
  {
    if p == 0 then []
    else
      RescaledPlies(first, thicknesses, spotsPerPly, p - 1) +
      PlySpots(PlyBase(first, thicknesses, p - 1), Step(thicknesses, spotsPerPly, p - 1), spotsPerPly)
  }

  lemma {:induction false} RescaledPliesLength(first: real, thicknesses: seq<real>, spotsPerPly: int, p: int)
    requires spotsPerPly >= 2 && 0 <= p <= |thicknesses|
    ensures |RescaledPlies(first, thicknesses, spotsPerPly, p)| == p * spotsPerPly
  {
    if p > 0 {
      RescaledPliesLength(first, thicknesses, spotsPerPly, p - 1);
      assert (p - 1) * spotsPerPly + spotsPerPly == p * spotsPerPly;
    }
  }

  /** The offsets with every ply rewritten from `thicknesses`; the rest is kept. */
  function Rescaled(offsets: seq<real>, thicknesses: seq<real>, spotsPerPly: int): (r: seq<real>)
    requires spotsPerPly >= 2 && |thicknesses| * spotsPerPly <= |offsets| && |offsets| > 0
    ensures |r| == |offsets|
  {
    RescaledPliesLength(offsets[0], thicknesses, spotsPerPly, |thicknesses|);
    RescaledPlies(offsets[0], thicknesses, spotsPerPly, |thicknesses|) + offsets[|thicknesses| * spotsPerPly..]
  }

  /** Item `i` of block `q` of `p` blocks of width `w`, the last of which is `last`. */
  lemma BlockAt<T>(prev: seq<T>, last: seq<T>, w: int, p: int, q: int, i: int)
    requires |prev| == (p - 1) * w && |last| == w && 0 <= q < p && 0 <= i < w
    ensures 0 <= q * w + i < p * w == |prev + last|
    ensures q < p - 1 ==> q * w + i < |prev| && (prev + last)[q * w + i] == prev[q * w + i]
    ensures q == p - 1 ==> (prev + last)[q * w + i] == last[i]
  {
    SlotInRange(q, i, w, p);
    if q < p - 1 {
      SlotInRange(q, i, w, p - 1);
    }
  }

  /** Spot `i` of ply `q` is moved to the ply's start plus `i` steps. */
  lemma {:induction false} RescaledPliesAt(first: real, thicknesses: seq<real>, spotsPerPly: int, p: int, q: int, i: int)
    requires spotsPerPly >= 2 && 0 <= q < p <= |thicknesses| && 0 <= i < spotsPerPly
    ensures 0 <= q * spotsPerPly + i < |RescaledPlies(first, thicknesses, spotsPerPly, p)| &&
      RescaledPlies(first, thicknesses, spotsPerPly, p)[q * spotsPerPly + i] ==
      PlyBase(first, thicknesses, q) + Step(thicknesses, spotsPerPly, q) * i as real
  {
    RescaledPliesLength(first, thicknesses, spotsPerPly, p - 1);
    var prev := RescaledPlies(first, thicknesses, spotsPerPly, p - 1);
    var last := PlySpots(PlyBase(first, thicknesses, p - 1), Step(thicknesses, spotsPerPly, p - 1), spotsPerPly);
    assert RescaledPlies(first, thicknesses, spotsPerPly, p) == prev + last;
    BlockAt(prev, last, spotsPerPly, p, q, i);
    if q < p - 1 {
      RescaledPliesAt(first, thicknesses, spotsPerPly, p - 1, q, i);
    }
  }

  /** The rewritten plies end where the next ply starts. */
  lemma RescaledPliesTop(first: real, thicknesses: seq<real>, spotsPerPly: int, p: int)
    requires spotsPerPly >= 2 && 0 < p <= |thicknesses|
    ensures 0 < p * spotsPerPly == |RescaledPlies(first, thicknesses, spotsPerPly, p)|
    ensures RescaledPlies(first, thicknesses, spotsPerPly, p)[p * spotsPerPly - 1] == PlyBase(first, thicknesses, p)
  {
    RescaledPliesLength(first, thicknesses, spotsPerPly, p);
    RescaledPliesAt(first, thicknesses, spotsPerPly, p, p - 1, spotsPerPly - 1);
    StepsMakeThickness(thicknesses, spotsPerPly, p - 1);
    assert (p - 1) * spotsPerPly + (spotsPerPly - 1) == p * spotsPerPly - 1;
  }

  /** Spot `i` of ply `p` of the rewritten offsets. */
  lemma RescaledAt(offsets: seq<real>, thicknesses: seq<real>, spotsPerPly: int, p: int, i: int)
    requires spotsPerPly >= 2 && |thicknesses| * spotsPerPly <= |offsets| && |offsets| > 0
    requires 0 <= p < |thicknesses| && 0 <= i < spotsPerPly
    ensures 0 <= p * spotsPerPly + i < |thicknesses| * spotsPerPly
    ensures Rescaled(offsets, thicknesses, spotsPerPly)[p * spotsPerPly + i] ==
      PlyBase(offsets[0], thicknesses, p) + Step(thicknesses, spotsPerPly, p) * i as real
  {
    RescaledPliesLength(offsets[0], thicknesses, spotsPerPly, |thicknesses|);
    RescaledPliesAt(offsets[0], thicknesses, spotsPerPly, |thicknesses|, p, i);
  }

  /** The first offset stays where it is. */
  lemma RescaledKeepsFirstOffset(offsets: seq<real>, thicknesses: seq<real>, spotsPerPly: int)
    requires spotsPerPly >= 2 && |thicknesses| * spotsPerPly <= |offsets| && |offsets| > 0 && |thicknesses| > 0
    ensures Rescaled(offsets, thicknesses, spotsPerPly)[0] == offsets[0]
  {
    RescaledAt(offsets, thicknesses, spotsPerPly, 0, 0);
  }

  /** Offsets above the last ply are not touched. */
  lemma RescaledKeepsRest(offsets: seq<real>, thicknesses: seq<real>, spotsPerPly: int, k: int)
    requires spotsPerPly >= 2 && |thicknesses| * spotsPerPly <= k < |offsets|
    ensures Rescaled(offsets, thicknesses, spotsPerPly)[k] == offsets[k]
  {
    RescaledPliesLength(offsets[0], thicknesses, spotsPerPly, |thicknesses|);
  }

  /** Within a ply, neighbouring spots are `Step` apart. */
  lemma RescaledEvenSpacing(offsets: seq<real>, thicknesses: seq<real>, spotsPerPly: int, p: int, i: int)
    requires spotsPerPly >= 2 && |thicknesses| * spotsPerPly <= |offsets| && |offsets| > 0
    requires 0 <= p < |thicknesses| && 0 <= i < spotsPerPly - 1
    ensures 0 <= p * spotsPerPly + i && p * spotsPerPly + i + 1 < |offsets|
    ensures var r := Rescaled(offsets, thicknesses, spotsPerPly);
      r[p * spotsPerPly + i + 1] - r[p * spotsPerPly + i] == Step(thicknesses, spotsPerPly, p)
  {
    var step := Step(thicknesses, spotsPerPly, p);
    RescaledAt(offsets, thicknesses, spotsPerPly, p, i);
    RescaledAt(offsets, thicknesses, spotsPerPly, p, i + 1);
    assert step * (i + 1) as real == step * i as real + step;
  }

  /** A rewritten ply is as thick as its thickness. */
  lemma RescaledPlyThickness(offsets: seq<real>, thicknesses: seq<real>, spotsPerPly: int, p: int)
    requires spotsPerPly >= 2 && |thicknesses| * spotsPerPly <= |offsets| && |offsets| > 0 && 0 <= p < |thicknesses|
    ensures 0 <= p * spotsPerPly < (p + 1) * spotsPerPly <= |offsets|
    ensures var r := Rescaled(offsets, thicknesses, spotsPerPly);
      r[(p + 1) * spotsPerPly - 1] - r[p * spotsPerPly] == thicknesses[p]
  {
    SlotInRange(p, spotsPerPly - 1, spotsPerPly, |thicknesses|);
    assert (p + 1) * spotsPerPly - 1 == p * spotsPerPly + (spotsPerPly - 1);
    StepsMakeThickness(thicknesses, spotsPerPly, p);
    RescaledAt(offsets, thicknesses, spotsPerPly, p, 0);
    RescaledAt(offsets, thicknesses, spotsPerPly, p, spotsPerPly - 1);
  }

  /** Every ply above the first starts at the rewritten top of the ply below. */
  lemma RescaledPlyStartsOnPrevious(offsets: seq<real>, thicknesses: seq<real>, spotsPerPly: int, p: int)
    requires spotsPerPly >= 2 && |thicknesses| * spotsPerPly <= |offsets| && |offsets| > 0 && 0 < p < |thicknesses|
    ensures 0 < p * spotsPerPly < |offsets|
    ensures var r := Rescaled(offsets, thicknesses, spotsPerPly);
      r[p * spotsPerPly] == r[p * spotsPerPly - 1]
  {
    RescaledAt(offsets, thicknesses, spotsPerPly, p, 0);
    RescaledAt(offsets, thicknesses, spotsPerPly, p - 1, spotsPerPly - 1);
    StepsMakeThickness(thicknesses, spotsPerPly, p - 1);
    assert (p - 1) * spotsPerPly + (spotsPerPly - 1) == p * spotsPerPly - 1;
  }

  /**
   * The thickness loop of `get_offsets_by_spots_from_sp`: every ply's span,
   * scaled for a core ply; indexing past the offsets raises IndexError.
   */
  method PlyThicknesses(offsets: array<real>, isCore: seq<bool>, spotsPerPly: int, factor: real)
    returns (r: Result<seq<real>>)
    requires spotsPerPly >= 2
    ensures r.Ok? <==> |isCore| * spotsPerPly <= offsets.Length
    ensures r.Err? ==> r.error == IndexError
    ensures r.Ok? ==> r.value == Thicknesses(offsets[..], isCore, spotsPerPly, factor)
  {
    var n := |isCore|;
    var thicknesses: seq<real> := [];
    var p, lo := 0, 0;
    while p < n
      invariant 0 <= p <= n && lo == p * spotsPerPly <= offsets.Length
      invariant |thicknesses| == p
      invariant forall q :: 0 <= q < p ==> thicknesses[q] == PlySpan(offsets[..], isCore, spotsPerPly, factor, q)
    {
      if lo + spotsPerPly - 1 >= offsets.Length {
        MulMonotone(p + 1, n, spotsPerPly);
        return Err(IndexError);
      }
      var th := offsets[lo + spotsPerPly - 1] - offsets[lo];
      if isCore[p] {
        th := th * factor;
      }
      thicknesses := thicknesses + [th];
      p, lo := p + 1, lo + spotsPerPly;
    }
    return Ok(thicknesses);
  }

  /** Writes `spotsPerPly` spots, `step` apart from `top`, into `offsets` from position `lo`. */
  method FillSpots(offsets: array<real>, lo: int, top: real, step: real, spotsPerPly: int)
    requires 0 <= lo && 0 <= spotsPerPly && lo + spotsPerPly <= offsets.Length
    modifies offsets
    ensures offsets[..lo + spotsPerPly] == old(offsets[..lo]) + PlySpots(top, step, spotsPerPly)
    ensures offsets[lo + spotsPerPly..] == old(offsets[lo + spotsPerPly..])
  {
    var i := 0;
    while i < spotsPerPly
      invariant 0 <= i <= spotsPerPly
      invariant forall t :: 0 <= t < lo ==> offsets[t] == old(offsets[t])
      invariant forall t :: lo <= t < lo + i ==> offsets[t] == top + step * (t - lo) as real
      invariant forall t :: lo + i <= t < offsets.Length ==> offsets[t] == old(offsets[t])
    {
      offsets[lo + i] := top + step * i as real;
      i := i + 1;
    }
    ghost var spots := PlySpots(top, step, spotsPerPly);
    assert forall t :: lo <= t < lo + spotsPerPly ==> offsets[t] == spots[t - lo];
    assert offsets[..lo + spotsPerPly] == old(offsets[..lo]) + spots;
  }

  /** Rewrites ply `index` in place: its spots `Step` apart from the top of the ply below. */
  method RewritePly(offsets: array<real>, first: real, thicknesses: seq<real>, spotsPerPly: int, index: int)
    requires spotsPerPly >= 2 && 0 <= index < |thicknesses| && |thicknesses| * spotsPerPly <= offsets.Length
    requires 0 <= index * spotsPerPly
    requires offsets[..index * spotsPerPly] == RescaledPlies(first, thicknesses, spotsPerPly, index)
    requires index == 0 ==> offsets[0] == first
    modifies offsets
    ensures (index + 1) * spotsPerPly <= offsets.Length
    ensures offsets[..(index + 1) * spotsPerPly] == RescaledPlies(first, thicknesses, spotsPerPly, index + 1)
    ensures offsets[(index + 1) * spotsPerPly..] == old(offsets[(index + 1) * spotsPerPly..])
  {
    var lo := index * spotsPerPly;
    SlotInRange(index, spotsPerPly - 1, spotsPerPly, |thicknesses|);
    var step := thicknesses[index] / (spotsPerPly - 1) as real;
    var top := if index > 0 then offsets[lo - 1] else offsets[0];
    assert top == PlyBase(first, thicknesses, index) by {
      if index > 0 {
        RescaledPliesTop(first, thicknesses, spotsPerPly, index);
        assert offsets[lo - 1] == offsets[..lo][lo - 1];
      }
    }
    assert lo + spotsPerPly == (index + 1) * spotsPerPly;
    FillSpots(offsets, lo, top, step, spotsPerPly);
  }

  /** Rewrites the plies one after the other, bottom up; the offsets past the last ply stay. */
  method RewritePlies(offsets: array<real>, thicknesses: seq<real>, spotsPerPly: int)
    requires spotsPerPly >= 2 && |thicknesses| > 0 && |thicknesses| * spotsPerPly <= offsets.Length
    modifies offsets
    ensures offsets.Length > 0
    ensures offsets[..] == Rescaled(old(offsets[..]), thicknesses, spotsPerPly)
  {
    var n := |thicknesses|;
    ghost var before := offsets[..];
    SlotInRange(0, 0, spotsPerPly, n);
    var first := offsets[0];
    var index := 0;
    while index < n
      invariant 0 <= index <= n
      invariant index * spotsPerPly <= offsets.Length
      invariant offsets[..index * spotsPerPly] == RescaledPlies(first, thicknesses, spotsPerPly, index)
      invariant offsets[index * spotsPerPly..] == before[index * spotsPerPly..]
    {
      assert index == 0 ==> offsets[0] == offsets[0..][0];
      RewritePly(offsets, first, thicknesses, spotsPerPly, index);
      assert offsets[(index + 1) * spotsPerPly..] == before[(index + 1) * spotsPerPly..] by {
        assert (index + 1) * spotsPerPly >= index * spotsPerPly;
      }
      index := index + 1;
    }
    assert offsets[..] == offsets[..n * spotsPerPly] + offsets[n * spotsPerPly..];
  }

  /**
   * `get_offsets_by_spots_from_sp`: the offsets at `indices`; with a scale
   * factor other than 1 the plies are first rewritten in place, the core plies rescaled.
   */
  method OffsetsBySpots(offsets: array<real>, isCore: seq<bool>, spotsPerPly: int, indices: seq<int>, factor: real)
    returns (r: Result<seq<real>>)
    requires spotsPerPly >= 2
    modifies offsets
    ensures factor == 1.0 ==> offsets[..] == old(offsets[..]) && r == Gather(offsets[..], indices)
    ensures factor != 1.0 && isCore == [] ==> offsets[..] == old(offsets[..]) && r == Err(RuntimeError)
    ensures factor != 1.0 && isCore != [] && |isCore| * spotsPerPly > offsets.Length ==>
      offsets[..] == old(offsets[..]) && r == Err(IndexError)
    ensures factor != 1.0 && isCore != [] && |isCore| * spotsPerPly <= offsets.Length ==>
      offsets.Length > 0 &&
      offsets[..] == Rescaled(old(offsets[..]), Thicknesses(old(offsets[..]), isCore, spotsPerPly, factor), spotsPerPly) &&
      r == Gather(offsets[..], indices)
  {
    if factor == 1.0 {
      return Gather(offsets[..], indices);
    }
    if isCore == [] {
      return Err(RuntimeError);
    }
    var computed := PlyThicknesses(offsets, isCore, spotsPerPly, factor);
    if computed.Err? {
      return Err(IndexError);
    }
    var thicknesses := computed.value;
    RewritePlies(offsets, thicknesses, spotsPerPly);
    return Gather(offsets[..], indices);
  }

  /** numpy's `a.reshape(n, w)` of a flat array: `n` rows of `w` items, in order. */
  function Reshape<T>(a: seq<T>, n: nat, w: nat): (r: seq<seq<T>>)
    requires |a| == n * w
    ensures |r| == n
    ensures forall p :: 0 <= p < n ==> |r[p]| == w
  {
    if n == 0 then []
    else Reshape(a[..(n - 1) * w], n - 1, w) + [a[(n - 1) * w..]]
  }

  /** The rows laid end to end. */
  function Flatten<T>(rows: seq<seq<T>>): seq<T>
  {
    if rows == [] then [] else Flatten(rows[..|rows| - 1]) + rows[|rows| - 1]
  }

  /** Reshaping loses nothing: the rows put back together are the flat array. */
  lemma {:induction false} FlattenReshape<T>(a: seq<T>, n: nat, w: nat)
    requires |a| == n * w
    ensures Flatten(Reshape(a, n, w)) == a
  {
    if n > 0 {
      var rows := Reshape(a, n, w);
      assert rows[..n - 1] == Reshape(a[..(n - 1) * w], n - 1, w);
      FlattenReshape(a[..(n - 1) * w], n - 1, w);
      assert a[..(n - 1) * w] + a[(n - 1) * w..] == a;
    }
  }

  /** Item `j` of row `p` is item `p * w + j` of the flat array. */
  lemma {:induction false} ReshapeAt<T>(a: seq<T>, n: nat, w: nat, p: int, j: int)
    requires |a| == n * w && 0 <= p < n && 0 <= j < w
    ensures 0 <= p * w + j < |a|
    ensures Reshape(a, n, w)[p][j] == a[p * w + j]
  {
    SlotInRange(p, j, w, n);
    if p < n - 1 {
      SlotInRange(p, j, w, n - 1);
      ReshapeAt(a[..(n - 1) * w], n - 1, w, p, j);
    }
  }

  /** The failure at the spot where the ply's inverse reserve factor first peaks. */
  function CriticalFailure(irf: seq<real>, rf: seq<real>, mos: seq<real>, modes: seq<string>): (r: FailureResult)
    requires |irf| > 0 && |rf| == |mos| == |modes| == |irf|
    ensures exists c :: IsFirstMax(irf, c) && r == FailureResult(modes[c], irf[c], rf[c], mos[c])
  {
    var c := FirstArgMax(irf);
    FailureResult(modes[c], irf[c], rf[c], mos[c])
  }

  /** The four arrays reshape to `nPlies` rows of `spotsPerPly` spots. */
  predicate Reshapable(irf: seq<real>, rf: seq<real>, mos: seq<real>, modes: seq<string>, nPlies: nat, spotsPerPly: nat)
  {
    |irf| == nPlies * spotsPerPly && |mos| == nPlies * spotsPerPly &&
    |rf| == nPlies * spotsPerPly && |modes| == nPlies * spotsPerPly
  }

  /**
   * `get_ply_wise_critical_failures_from_sp`: per ply, the failure at its critical spot.
   * A reshape that does not fit, or an argmax over empty rows, raises ValueError.
   */
  method PlyWiseCriticalFailures(irf: seq<real>, rf: seq<real>, mos: seq<real>, modes: seq<string>,
                                 nPlies: nat, spotsPerPly: nat)
    returns (r: Result<seq<FailureResult>>)
    ensures r.Err? <==> !Reshapable(irf, rf, mos, modes, nPlies, spotsPerPly) || spotsPerPly == 0
    ensures r.Err? ==> r.error == ValueError
    ensures r.Ok? ==> |r.value| == nPlies
    ensures r.Ok? ==> forall p :: 0 <= p < nPlies ==>
      r.value[p] == CriticalFailure(Reshape(irf, nPlies, spotsPerPly)[p], Reshape(rf, nPlies, spotsPerPly)[p],
                                    Reshape(mos, nPlies, spotsPerPly)[p], Reshape(modes, nPlies, spotsPerPly)[p])
  {
    if !Reshapable(irf, rf, mos, modes, nPlies, spotsPerPly) || spotsPerPly == 0 {
      return Err(ValueError);
    }
    var irfs := Reshape(irf, nPlies, spotsPerPly);
    var rfs := Reshape(rf, nPlies, spotsPerPly);
    var moss := Reshape(mos, nPlies, spotsPerPly);
    var failureModes := Reshape(modes, nPlies, spotsPerPly);
    var result: seq<FailureResult> := [];
    var p := 0;
    while p < nPlies
      invariant 0 <= p <= nPlies && |result| == p
      invariant forall q :: 0 <= q < p ==> result[q] == CriticalFailure(irfs[q], rfs[q], moss[q], failureModes[q])
    {
      var c := FirstArgMax(irfs[p]);
      result := result + [FailureResult(failureModes[p][c], irfs[p][c], rfs[p][c], moss[p][c])];
      p := p + 1;
    }
    return Ok(result);
  }

  /** The critical failure of ply `p` is the mode and the values of one spot of that ply, as laid out in the flat arrays. */
  lemma CriticalFailureOfPly(irf: seq<real>, rf: seq<real>, mos: seq<real>, modes: seq<string>,
                             nPlies: nat, spotsPerPly: nat, p: int)
    requires Reshapable(irf, rf, mos, modes, nPlies, spotsPerPly) && spotsPerPly > 0 && 0 <= p < nPlies
    ensures var c := FirstArgMax(Reshape(irf, nPlies, spotsPerPly)[p]);
      var k := p * spotsPerPly + c;
      0 <= k < |irf| &&
      CriticalFailure(Reshape(irf, nPlies, spotsPerPly)[p], Reshape(rf, nPlies, spotsPerPly)[p],
                      Reshape(mos, nPlies, spotsPerPly)[p], Reshape(modes, nPlies, spotsPerPly)[p]) ==
      FailureResult(modes[k], irf[k], rf[k], mos[k])
  {
    var c := FirstArgMax(Reshape(irf, nPlies, spotsPerPly)[p]);
    ReshapeAt(irf, nPlies, spotsPerPly, p, c);
    ReshapeAt(rf, nPlies, spotsPerPly, p, c);
    ReshapeAt(mos, nPlies, spotsPerPly, p, c);
    ReshapeAt(modes, nPlies, spotsPerPly, p, c);
  }
}
