// Analysis-ply names, the element-info provider factory checks, the analysis
// ply -> material map and the per-element analysis plies of the `layup_info`
// package, and the older `layup_info` module.
module LayupInfo {
  import opened Common
  import opened Layout
  import opened ElementInfoProviders

  const AnalysisPlyPrefix: string := "AnalysisPly:"

  /** The property-field names that start with the analysis-ply prefix, prefix stripped, in field order. */
  function AllAnalysisPlyNames(fieldNames: seq<string>): (r: seq<string>)
    ensures |r| <= |fieldNames|
    ensures forall i :: 0 <= i < |r| ==> AnalysisPlyPrefix + r[i] in fieldNames
    ensures forall j :: 0 <= j < |fieldNames| && StartsWith(fieldNames[j], AnalysisPlyPrefix) ==>
      fieldNames[j][|AnalysisPlyPrefix|..] in r
  {
    if fieldNames == [] then []
    else
      var n := |fieldNames| - 1;
      var init := AllAnalysisPlyNames(fieldNames[..n]);
      var last := fieldNames[n];
      assert forall i :: 0 <= i < |init| ==> AnalysisPlyPrefix + init[i] in fieldNames by {
        assert forall x :: x in fieldNames[..n] ==> x in fieldNames;
      }
      if StartsWith(last, AnalysisPlyPrefix) then
        assert AnalysisPlyPrefix + last[|AnalysisPlyPrefix|..] == last;
        init + [last[|AnalysisPlyPrefix|..]]
      else init
  }

  /** `_get_analysis_ply`: the property-field name of a ply; unknown plies raise unless the check is skipped. */
  function GetAnalysisPly(fieldNames: seq<string>, name: string, skipCheck: bool): (r: Result<string>)
    ensures r.Err? <==> !skipCheck && AnalysisPlyPrefix + name !in fieldNames
    ensures r.Err? ==> r.error == RuntimeError
    ensures r.Ok? ==> StartsWith(r.value, AnalysisPlyPrefix) && r.value[|AnalysisPlyPrefix|..] == name
  {
    var fieldName := AnalysisPlyPrefix + name;
    if !skipCheck && fieldName !in fieldNames then Err(RuntimeError)
    else
      assert fieldName[|AnalysisPlyPrefix|..] == name;
      Ok(fieldName)
  }

  /** A ply is found by the checked lookup exactly when it is among the listed analysis-ply names. */
  lemma GetAnalysisPlyFindsListedNames(fieldNames: seq<string>, name: string)
    ensures GetAnalysisPly(fieldNames, name, false).Ok? <==> name in AllAnalysisPlyNames(fieldNames)
  {
    var names := AllAnalysisPlyNames(fieldNames);
    var fieldName := AnalysisPlyPrefix + name;
    if fieldName in fieldNames {
      var j :| 0 <= j < |fieldNames| && fieldNames[j] == fieldName;
      assert StartsWith(fieldNames[j], AnalysisPlyPrefix);
      assert fieldNames[j][|AnalysisPlyPrefix|..] == name;
    }
    if name in names {
      var i :| 0 <= i < |names| && names[i] == name;
    }
  }

  // ----- the provider factory checks -----

  const RequestedFields: seq<string> := ["apdl_element_type", "element_layer_indices", "element_layered_material_ids"]

  /** `names[k]` is the first of `names` that is not available. */
  predicate FirstMissingAt(names: seq<string>, available: set<string>, k: int)
  {
    0 <= k < |names| && names[k] !in available && forall i :: 0 <= i < k ==> names[i] in available
  }

  /** The first property field, in the order given, that the mesh lacks. */
  function FirstMissing(names: seq<string>, available: set<string>): (r: Option<string>)
    ensures r.None? <==> forall i :: 0 <= i < |names| ==> names[i] in available
    ensures r.Some? ==> exists k :: FirstMissingAt(names, available, k) && names[k] == r.value
  {
    if names == [] then None
    else if names[0] !in available then
      Some(names[0])
    else
      var rest := FirstMissing(names[1..], available);
      if rest.Some? then
        var k :| FirstMissingAt(names[1..], available, k) && names[1..][k] == rest.value;
        assert FirstMissingAt(names, available, k + 1);
        rest
      else rest
  }

  /** The error `get_element_info_provider` raises: the missing field and whether the lay-up hint is appended. */
  datatype MissingField = MissingField(name: string, layupHint: bool)

  /** The check as written: the hint list spells the material field `element_layer_material_ids`. */
  function CheckProviderFields(available: set<string>): (r: Option<MissingField>)
    ensures r.None? <==> forall i :: 0 <= i < |RequestedFields| ==> RequestedFields[i] in available
    ensures r.Some? ==> FirstMissing(RequestedFields, available) == Some(r.value.name)
    ensures r.Some? ==> (r.value.layupHint <==> r.value.name == "element_layer_indices")
  {
    match FirstMissing(RequestedFields, available)
    case None => None
    case Some(name) =>
      assert |"element_layer_material_ids"| != |RequestedFields[0]| && |"element_layer_material_ids"| != |RequestedFields[2]|;
      Some(MissingField(name, name in ["element_layer_indices", "element_layer_material_ids"]))
  }

  /** Only the material-id field is missing: the error carries no lay-up hint. */
  lemma ProviderHintCounterexample()
    ensures CheckProviderFields({"apdl_element_type", "element_layer_indices"}) ==
      Some(MissingField("element_layered_material_ids", false))
  {
    var available := {"apdl_element_type", "element_layer_indices"};
    assert RequestedFields[0] in available && RequestedFields[1] in available;
    assert RequestedFields[2] !in available;
    assert FirstMissing(RequestedFields[2..], available) == Some("element_layered_material_ids");
    assert FirstMissing(RequestedFields[1..], available) == Some("element_layered_material_ids");
    assert "element_layered_material_ids" != "element_layer_indices";
    assert "element_layered_material_ids" != "element_layer_material_ids";
  }

  /** The check with the hint list naming the requested material field. */
  function CheckProviderFieldsCorrected(available: set<string>): (r: Option<MissingField>)
    ensures r.None? <==> forall i :: 0 <= i < |RequestedFields| ==> RequestedFields[i] in available
    ensures r.Some? ==> FirstMissing(RequestedFields, available) == Some(r.value.name)
  {
    match FirstMissing(RequestedFields, available)
    case None => None
    case Some(name) => Some(MissingField(name, name in ["element_layer_indices", "element_layered_material_ids"]))
  }

  /** Corrected, the hint accompanies exactly the two fields the lay-up provider adds. */
  lemma CorrectedHintForLayupFields(available: set<string>)
    ensures var r := CheckProviderFieldsCorrected(available);
      r.Some? ==> (r.value.layupHint <==> r.value.name != "apdl_element_type")
  {
    var r := CheckProviderFieldsCorrected(available);
    if r.Some? {
      var k :| FirstMissingAt(RequestedFields, available, k) && RequestedFields[k] == r.value.name;
      assert k == 0 || k == 1 || k == 2;
    }
  }

  // ----- element info and the ply -> material map -----

  /** `ElementInfoProvider.get_element_info` of this package: no cache and no solver material map. */
  function ElementInfoOf(f: MapdlFields, id: int): (r: Result<Option<ElementInfo>>)
    ensures r.Ok? && r.value.Some? && !r.value.value.isLayered ==> r.value.value.dpfMaterialIds == []
    ensures r.Ok? && r.value.Some? ==> (r.value.value.isLayered <==> id in f.layerIndices)
  {
    DeriveElementInfo(f.(solverToDpf := map[]), id)
  }

  /** An analysis ply: its name, the ids of its scoping and its layer index in each of those elements. */
  datatype AnalysisPlyField = AnalysisPlyField(name: string, elementIds: seq<int>, layerIndex: map<int, int>)

  /** Element `e` is in the mesh, has lay-up information, and its ply layer has material `m`. */
  predicate MaterialOfLayer(e: int, layerIndex: map<int, int>, mesh: set<int>, f: MapdlFields, m: int)
  {
    && e in mesh && e in layerIndex
    && var info := ElementInfoOf(f, e);
    && info.Ok? && info.value.Some?
    && var p := PyIndex(|info.value.value.dpfMaterialIds|, layerIndex[e]);
    && p.Some? && info.value.value.dpfMaterialIds[p.value] == m
  }

  /**
   * The material of a ply: the first element of the ply that is in the mesh and
   * has lay-up information decides, through the material of its layer.
   */
  function PlyMaterial(ids: seq<int>, layerIndex: map<int, int>, mesh: set<int>, f: MapdlFields): (r: Result<Option<int>>)
    ensures (forall k :: 0 <= k < |ids| ==> ids[k] !in mesh) ==> r == Ok(None)
    ensures r.Ok? && r.value.Some? ==> exists k :: 0 <= k < |ids| && MaterialOfLayer(ids[k], layerIndex, mesh, f, r.value.value)
    decreases |ids|
  {
    if ids == [] then Ok(None)
    else
      var e := ids[0];
      var rest := PlyMaterial(ids[1..], layerIndex, mesh, f);
      if e !in mesh then
        PlyMaterialShift(ids, rest, layerIndex, mesh, f);
        rest
      else match ElementInfoOf(f, e)
        case Err(err) => Err(err)
        case Ok(None) =>
          PlyMaterialShift(ids, rest, layerIndex, mesh, f);
          rest
        case Ok(Some(info)) =>
          if e !in layerIndex then Err(AssertionError)
          else match PyIndex(|info.dpfMaterialIds|, layerIndex[e])
            case None => Err(IndexError)
            case Some(p) => Ok(Some(info.dpfMaterialIds[p]))
  }

  /** What the scan of `ids[1..]` promises carries over to `ids`. */
  lemma PlyMaterialShift(ids: seq<int>, rest: Result<Option<int>>, layerIndex: map<int, int>, mesh: set<int>, f: MapdlFields)
    requires |ids| > 0
    requires rest.Ok? && rest.value.Some? ==>
      exists k :: 0 <= k < |ids| - 1 && MaterialOfLayer(ids[1..][k], layerIndex, mesh, f, rest.value.value)
    ensures rest.Ok? && rest.value.Some? ==>
      exists k :: 0 <= k < |ids| && MaterialOfLayer(ids[k], layerIndex, mesh, f, rest.value.value)
  {
    if rest.Ok? && rest.value.Some? {
      var k :| 0 <= k < |ids| - 1 && MaterialOfLayer(ids[1..][k], layerIndex, mesh, f, rest.value.value);
      assert ids[k + 1] == ids[1..][k];
    }
  }

  /** The ply -> material map as the loop over the plies leaves it: plies without a deciding element are omitted. */
  function PlyMaterialMap(plies: seq<AnalysisPlyField>, mesh: set<int>, f: MapdlFields): Result<map<string, int>>
  {
    if plies == [] then Ok(map[])
    else
      var last := plies[|plies| - 1];
      match PlyMaterialMap(plies[..|plies| - 1], mesh, f)
      case Err(e) => Err(e)
      case Ok(m) =>
        match PlyMaterial(last.elementIds, last.layerIndex, mesh, f)
        case Err(e) => Err(e)
        case Ok(None) => Ok(m)
        case Ok(Some(material)) => Ok(m[last.name := material])
  }

  /** `get_dpf_material_id_by_analyis_ply_map`: for each ply, scan its elements until one decides. */
  method DpfMaterialIdByAnalysisPly(plies: seq<AnalysisPlyField>, mesh: set<int>, f: MapdlFields)
    returns (r: Result<map<string, int>>)
    ensures r == PlyMaterialMap(plies, mesh, f)
  {
    var materials: map<string, int> := map[];
    var i := 0;
    while i < |plies|
      invariant 0 <= i <= |plies|
      invariant PlyMaterialMap(plies[..i], mesh, f) == Ok(materials)
    {
      var ply := plies[i];
      var found := FindPlyMaterial(ply, mesh, f);
      PlyMaterialMapStep(plies, i, mesh, f);
      if found.Err? {
        PlyMaterialMapPropagatesError(plies, i + 1, mesh, f);
        return Err(found.error);
      }
      if found.value.Some? {
        materials := materials[ply.name := found.value.value];
      }
      i := i + 1;
    }
    assert plies[..i] == plies;
    return Ok(materials);
  }

  /** One more ply extends the map by its material, if it has one, or raises what its scan raises. */
  lemma PlyMaterialMapStep(plies: seq<AnalysisPlyField>, i: int, mesh: set<int>, f: MapdlFields)
    requires 0 <= i < |plies|
    ensures PlyMaterialMap(plies[..i + 1], mesh, f) ==
      match PlyMaterialMap(plies[..i], mesh, f)
      case Err(e) => Err(e)
      case Ok(m) =>
        match PlyMaterial(plies[i].elementIds, plies[i].layerIndex, mesh, f)
        case Err(e) => Err(e)
        case Ok(None) => Ok(m)
        case Ok(Some(material)) => Ok(m[plies[i].name := material])
  {
    assert plies[..i + 1][..i] == plies[..i];
  }

  /** The inner loop: the elements of one ply, until one in the mesh with lay-up information decides. */
  method FindPlyMaterial(ply: AnalysisPlyField, mesh: set<int>, f: MapdlFields) returns (r: Result<Option<int>>)
    ensures r == PlyMaterial(ply.elementIds, ply.layerIndex, mesh, f)
  {
    var j := 0;
    while j < |ply.elementIds|
      invariant 0 <= j <= |ply.elementIds|
      invariant PlyMaterial(ply.elementIds, ply.layerIndex, mesh, f) == PlyMaterial(ply.elementIds[j..], ply.layerIndex, mesh, f)
    {
      var e := ply.elementIds[j];
      assert ply.elementIds[j..][1..] == ply.elementIds[j + 1..];
      if e in mesh {
        var info := ElementInfoOf(f, e);
        if info.Err? {
          return Err(info.error);
        }
        if info.value.Some? {
          if e !in ply.layerIndex {
            return Err(AssertionError);
          }
          var materialIds := info.value.value.dpfMaterialIds;
          var p := PyIndex(|materialIds|, ply.layerIndex[e]);
          if p.None? {
            return Err(IndexError);
          }
          return Ok(Some(materialIds[p.value]));
        }
      }
      j := j + 1;
    }
    assert ply.elementIds[j..] == [];
    return Ok(None);
  }

  /** Once the map of a prefix of the plies raises, so does the map of all of them. */
  lemma {:induction false} PlyMaterialMapPropagatesError(plies: seq<AnalysisPlyField>, i: int, mesh: set<int>, f: MapdlFields)
    requires 0 <= i <= |plies| && PlyMaterialMap(plies[..i], mesh, f).Err?
    ensures PlyMaterialMap(plies, mesh, f) == PlyMaterialMap(plies[..i], mesh, f)
    decreases |plies| - i
  {
    if i < |plies| {
      assert plies[..i + 1][..i] == plies[..i];
      PlyMaterialMapPropagatesError(plies, i + 1, mesh, f);
    } else {
      assert plies[..i] == plies;
    }
  }

  /** A ply with no element in the mesh does not appear in the map. */
  lemma {:induction false} PlyOutsideMeshOmitted(plies: seq<AnalysisPlyField>, mesh: set<int>, f: MapdlFields, m: map<string, int>, name: string)
    requires PlyMaterialMap(plies, mesh, f) == Ok(m)
    requires forall i :: 0 <= i < |plies| && plies[i].name == name ==>
      forall k :: 0 <= k < |plies[i].elementIds| ==> plies[i].elementIds[k] !in mesh
    ensures name !in m
  {
    if plies != [] {
      var n := |plies| - 1;
      var init := PlyMaterialMap(plies[..n], mesh, f);
      assert init.Ok?;
      PlyOutsideMeshOmitted(plies[..n], mesh, f, init.value, name);
    }
  }

  /** `LayupPropertiesProvider.get_analysis_plies`: None for a non-layered element, else the ply names in layer order. */
  function AnalysisPlies(indexes: Option<seq<int>>, indexToName: map<int, string>): (r: Result<Option<seq<string>>>)
    ensures indexes.None? ==> r == Ok(None)
    ensures indexes.Some? ==> (r.Ok? <==> forall i :: 0 <= i < |indexes.value| ==> indexes.value[i] in indexToName)
    ensures r.Err? ==> r.error == KeyError
    ensures r.Ok? && indexes.Some? ==> r.value.Some? && |r.value.value| == |indexes.value|
    ensures r.Ok? && indexes.Some? ==>
      forall i :: 0 <= i < |indexes.value| ==> indexes.value[i] in indexToName && r.value.value[i] == indexToName[indexes.value[i]]
  {
    match indexes
    case None => Ok(None)
    case Some(ix) =>
      if forall i :: 0 <= i < |ix| ==> ix[i] in indexToName then
        Ok(Some(seq(|ix|, i requires 0 <= i < |ix| => indexToName[ix[i]])))
      else Err(KeyError)
  }
}

// The older `layup_info` module: no DPF element-type check, a plain Exception
// for a type without corner nodes, and a ply -> material map that looks only
// at the first element of each ply.
module LegacyLayupInfo {
  import opened Common
  import opened Layout
  import opened ElementInfoProviders
  import opened LayupInfo

  /** The element is supported and its lay-up data is consistent: the older code reaches the DPF type lookup. */
  predicate LegacyReachesTypeLookup(f: MapdlFields, id: int)
  {
    && MapdlHeader(f, id).Ok? && MapdlHeader(f, id).value.Some?
    && LayeringOf(f.layerIndices, f.layerMaterials, f.solverMaterials, map[], id).Ok?
  }

  /** The older `ElementInfoProvider.get_element_info`. */
  function LegacyElementInfo(f: MapdlFields, id: int): (r: Result<Option<ElementInfo>>)
    ensures r.Ok? ==> r == ElementInfoOf(f, id)
    ensures ElementInfoOf(f, id).Ok? ==> r == ElementInfoOf(f, id)
    ensures LegacyReachesTypeLookup(f, id) && id !in f.dpfTypes ==>
      r == Err(ValueError) && ElementInfoOf(f, id) == Err(IndexError)
  {
    match MapdlHeader(f, id)
    case Err(e) => Err(e)
    case Ok(None) => Ok(None)
    case Ok(Some((t, nSpots))) =>
      match LayeringOf(f.layerIndices, f.layerMaterials, f.solverMaterials, map[], id)
      case Err(e) => Err(e)
      case Ok(layering) =>
        // `corner_nodes_by_element_type[None]` is the whole table, whose truth value is ambiguous.
        if id !in f.dpfTypes then Err(ValueError)
        else match PyIndex(|f.cornerTable|, f.dpfTypes[id])
          case None => Err(IndexError)
          case Some(p) =>
            var corners := f.cornerTable[p];
            if corners < 0 then Err(Exception)
            else
              var isShell := t == 181 || t == 281;
              var perPlane := if !layering.isLayered then -1 else if isShell then corners else corners / 2;
              Ok(Some(ElementInfo(id, layering.nLayers, corners, nSpots, layering.isLayered, t,
                                  layering.materials, isShell, perPlane)))
  }

  /** The older material lookup of one ply: its first element must have lay-up information. */
  function LegacyPlyMaterial(ply: AnalysisPlyField, f: MapdlFields): (r: Result<int>)
    ensures ply.elementIds == [] ==> r == Err(IndexError)
    ensures r.Ok? ==> |ply.elementIds| > 0 && MaterialOfLayer(ply.elementIds[0], ply.layerIndex, {ply.elementIds[0]}, f, r.value)
  {
    if ply.elementIds == [] then Err(IndexError)
    else
      var e := ply.elementIds[0];
      match LegacyElementInfo(f, e)
      case Err(err) => Err(err)
      case Ok(None) => Err(AssertionError)
      case Ok(Some(info)) =>
        if e !in ply.layerIndex then Err(TypeError)
        else match PyIndex(|info.dpfMaterialIds|, ply.layerIndex[e])
          case None => Err(IndexError)
          case Some(p) => Ok(info.dpfMaterialIds[p])
  }

  /** The older map: every ply gets an entry, decided by its first element. */
  function LegacyPlyMaterialMap(plies: seq<AnalysisPlyField>, f: MapdlFields): (r: Result<map<string, int>>)
    ensures r.Ok? ==> forall i :: 0 <= i < |plies| ==> plies[i].name in r.value
  {
    if plies == [] then Ok(map[])
    else
      var last := plies[|plies| - 1];
      match LegacyPlyMaterialMap(plies[..|plies| - 1], f)
      case Err(e) => Err(e)
      case Ok(m) =>
        match LegacyPlyMaterial(last, f)
        case Err(e) => Err(e)
        case Ok(material) => Ok(m[last.name := material])
  }

  /** The older `get_dpf_material_id_by_analyis_ply_map`: one entry per ply, from its first element. */
  method LegacyDpfMaterialIdByAnalysisPly(plies: seq<AnalysisPlyField>, f: MapdlFields) returns (r: Result<map<string, int>>)
    ensures r == LegacyPlyMaterialMap(plies, f)
  {
    var materials: map<string, int> := map[];
    var i := 0;
    while i < |plies|
      invariant 0 <= i <= |plies|
      invariant LegacyPlyMaterialMap(plies[..i], f) == Ok(materials)
    {
      assert plies[..i + 1][..i] == plies[..i];
      var material := LegacyPlyMaterial(plies[i], f);
      if material.Err? {
        LegacyMapPropagatesError(plies, i + 1, f);
        return Err(material.error);
      }
      materials := materials[plies[i].name := material.value];
      i := i + 1;
    }
    assert plies[..i] == plies;
    return Ok(materials);
  }

  /** Once the older map of a prefix of the plies raises, so does the map of all of them. */
  lemma {:induction false} LegacyMapPropagatesError(plies: seq<AnalysisPlyField>, i: int, f: MapdlFields)
    requires 0 <= i <= |plies| && LegacyPlyMaterialMap(plies[..i], f).Err?
    ensures LegacyPlyMaterialMap(plies, f) == LegacyPlyMaterialMap(plies[..i], f)
    decreases |plies| - i
  {
    if i < |plies| {
      assert plies[..i + 1][..i] == plies[..i];
      LegacyMapPropagatesError(plies, i + 1, f);
    } else {
      assert plies[..i] == plies;
    }
  }

  /** When the first element of a ply is in the mesh, the older lookup and the scan agree on that ply. */
  lemma LegacyPlyMaterialAgrees(ply: AnalysisPlyField, mesh: set<int>, f: MapdlFields)
    requires |ply.elementIds| > 0 && ply.elementIds[0] in mesh
    requires LegacyPlyMaterial(ply, f).Ok?
    ensures PlyMaterial(ply.elementIds, ply.layerIndex, mesh, f) == Ok(Some(LegacyPlyMaterial(ply, f).value))
  {
    var e := ply.elementIds[0];
    assert LegacyElementInfo(f, e).Ok?;
    assert ElementInfoOf(f, e) == LegacyElementInfo(f, e);
  }

  /**
   * Where every ply's first element is in the mesh and the older map succeeds,
   * both versions of the map are the same.
   */
  lemma {:induction false} LegacyMapAgrees(plies: seq<AnalysisPlyField>, mesh: set<int>, f: MapdlFields)
    requires forall i :: 0 <= i < |plies| ==> |plies[i].elementIds| > 0 && plies[i].elementIds[0] in mesh
    requires LegacyPlyMaterialMap(plies, f).Ok?
    ensures PlyMaterialMap(plies, mesh, f) == LegacyPlyMaterialMap(plies, f)
  {
    if plies != [] {
      var n := |plies| - 1;
      LegacyMapAgrees(plies[..n], mesh, f);
      LegacyPlyMaterialAgrees(plies[n], mesh, f);
    }
  }
}
