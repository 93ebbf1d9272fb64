// Deriving the lay-up information of one element (ElementInfo) from the
// element-type, keyopt, layer and material property fields of a mesh, for
// MAPDL and for LS-DYNA models, with a per-id cache.
module ElementInfoProviders {
  import opened Common
  import opened Layout

  // ----- MAPDL element types -----

  /** The MAPDL element types the providers support. */
  predicate SupportedMapdlType(t: int)
  {
    t == 181 || t == 281 || t == 185 || t == 186 || t == 187 || t == 190
  }

  /** The keyopt 8 -> number-of-spots table of the supported types. */
  function SpotTable(t: int, keyopt8: int): Option<int>
  {
    if t == 181 || t == 281 then
      (if keyopt8 == 0 then Some(0) else if keyopt8 == 1 then Some(2) else if keyopt8 == 2 then Some(3) else None)
    else if t == 185 || t == 186 || t == 190 then
      (if keyopt8 == 0 then Some(0) else if keyopt8 == 1 then Some(2) else None)
    else if t == 187 then
      (if keyopt8 == 0 then Some(0) else None)
    else None
  }

  /**
   * `_get_n_spots`: homogeneous 185/186 solids (keyopt 3 == 0) have no spots;
   * otherwise keyopt 8 = 0, 1, 2 gives 0, 2, 3 spots where the type allows it.
   */
  function NSpots(t: int, keyopt8: int, keyopt3: int): (r: Result<int>)
    ensures keyopt3 == 0 && (t == 185 || t == 186) ==> r == Ok(0)
    ensures r.Err? <==> (
      && !(keyopt3 == 0 && (t == 185 || t == 186))
      && !((t == 181 || t == 281) && 0 <= keyopt8 <= 2)
      && !((t == 185 || t == 186 || t == 190) && 0 <= keyopt8 <= 1)
      && !(t == 187 && keyopt8 == 0))
    ensures r.Err? ==> r.error == RuntimeError
    ensures r.Ok? && !(keyopt3 == 0 && (t == 185 || t == 186)) ==>
      0 <= keyopt8 <= 2 && r.value == [0, 2, 3][keyopt8]
  {
    if keyopt3 == 0 && (t == 185 || t == 186) then Ok(0)
    else match SpotTable(t, keyopt8)
      case None => Err(RuntimeError)
      case Some(n) => Ok(n)
  }

  /** `_is_shell`: a dictionary lookup over the supported types; the layered shells are 181 and 281. */
  function IsShell(t: int): (r: Result<bool>)
    ensures r.Ok? <==> SupportedMapdlType(t)
    ensures r.Err? ==> r.error == KeyError
    ensures r == Ok(true) <==> t == 181 || t == 281
  {
    if !SupportedMapdlType(t) then Err(KeyError)
    else Ok(t == 181 || t == 281)
  }

  // ----- DPF element types (codes of the DPF element-type enumeration) -----

  const Tet10: int := 0
  const Hex20: int := 1
  const Wedge15: int := 2
  const Pyramid13: int := 3
  const TriShell6: int := 5
  const QuadShell8: int := 7
  const Tet4: int := 10
  const Hex8: int := 11
  const Wedge6: int := 12
  const Pyramid5: int := 13
  const TriShell3: int := 15
  const QuadShell4: int := 17

  /** The DPF element types the LS-DYNA provider supports. */
  predicate SupportedDpfType(t: int)
  {
    t in {Tet10, Hex8, Tet4, Pyramid5, Wedge6, Hex20, Pyramid13, Wedge15,
          TriShell3, QuadShell4, TriShell6, QuadShell8}
  }

  /** `_is_shell_dpf`: the four shell types. */
  function IsShellDpf(t: int): (r: bool)
    ensures r ==> SupportedDpfType(t)
    ensures r <==> t in {TriShell3, QuadShell4, TriShell6, QuadShell8}
  {
    t == TriShell3 || t == QuadShell4 || t == TriShell6 || t == QuadShell8
  }

  // ----- inverting the solver -> DPF material table -----

  /** One entity of the `solver_material_ids` field: a DPF material and its solver material ids. */
  datatype MaterialEntry = MaterialEntry(dpfId: int, solverIds: seq<int>)

  /** The map `solver_material_to_dpf_id` the nested loop leaves: later entries overwrite. */
  function InvertMaterials(entries: seq<MaterialEntry>): map<int, int>
  {
    if entries == [] then map[]
    else
      var last := entries[|entries| - 1];
      InvertMaterials(entries[..|entries| - 1]) + map s | s in last.solverIds :: last.dpfId
  }

  /** Builds the solver -> DPF material map entry by entry. */
  method BuildSolverMaterialMap(entries: seq<MaterialEntry>) returns (m: map<int, int>)
    ensures m == InvertMaterials(entries)
  {
    m := map[];
    var i := 0;
    while i < |entries|
      invariant 0 <= i <= |entries|
      invariant m == InvertMaterials(entries[..i])
    {
      var entry := entries[i];
      var j := 0;
      while j < |entry.solverIds|
        invariant 0 <= j <= |entry.solverIds|
        invariant m == InvertMaterials(entries[..i]) + map s | s in entry.solverIds[..j] :: entry.dpfId
      {
        assert entry.solverIds[..j + 1] == entry.solverIds[..j] + [entry.solverIds[j]];
        OverwriteStep(InvertMaterials(entries[..i]), entry.solverIds[..j], entry.solverIds[..j + 1], entry.solverIds[j], entry.dpfId);
        m := m[entry.solverIds[j] := entry.dpfId];
        j := j + 1;
      }
      assert entry.solverIds[..j] == entry.solverIds;
      InvertMaterialsStep(entries, i);
      i := i + 1;
    }
    assert entries[..i] == entries;
  }

  /** The map after entry `i` is the map before it, overwritten by that entry. */
  lemma InvertMaterialsStep(entries: seq<MaterialEntry>, i: int)
    requires 0 <= i < |entries|
    ensures InvertMaterials(entries[..i + 1])
         == InvertMaterials(entries[..i]) + map s | s in entries[i].solverIds :: entries[i].dpfId
  {
    assert entries[..i + 1][..i] == entries[..i];
  }

  /**
   * A solver material id is mapped exactly when some entry lists it, and then
   * to the DPF material of the last entry that lists it.
   */
  lemma {:induction false} InvertMaterialsLastWins(entries: seq<MaterialEntry>, s: int, k: int)
    requires 0 <= k < |entries| && s in entries[k].solverIds
    requires forall j :: k < j < |entries| ==> s !in entries[j].solverIds
    ensures s in InvertMaterials(entries) && InvertMaterials(entries)[s] == entries[k].dpfId
  {
    var n := |entries| - 1;
    if k < n {
      InvertMaterialsLastWins(entries[..n], s, k);
    }
  }

  /** A solver material id that no entry lists is not mapped. */
  lemma {:induction false} InvertMaterialsUnlisted(entries: seq<MaterialEntry>, s: int)
    requires forall j :: 0 <= j < |entries| ==> s !in entries[j].solverIds
    ensures s !in InvertMaterials(entries)
  {
    if entries != [] {
      InvertMaterialsUnlisted(entries[..|entries| - 1], s);
    }
  }

  // ----- the shared derivation steps -----

  /** Layered-ness, layer count and materials: from the layer data, else from the solver material map. */
  datatype Layering = Layering(isLayered: bool, nLayers: int, materials: seq<int>)

  function LayeringOf(layerIndices: map<int, seq<int>>, layerMaterials: map<int, seq<int>>,
                      solverMaterials: map<int, int>, solverToDpf: map<int, int>, id: int): (r: Result<Layering>)
    ensures r.Ok? ==> (r.value.isLayered <==> id in layerIndices)
    ensures id in layerIndices ==> (r.Ok? <==> id in layerMaterials && |layerIndices[id]| > 0 && layerIndices[id][0] + 1 == |layerIndices[id]|)
    ensures r.Ok? && r.value.isLayered ==>
      r.value.nLayers == layerIndices[id][0] && r.value.materials == layerMaterials[id]
    ensures r.Ok? && !r.value.isLayered ==> r.value.nLayers == 1
    ensures id !in layerIndices && solverToDpf == map[] ==> r == Ok(Layering(false, 1, []))
    ensures id !in layerIndices && solverToDpf != map[] && r.Ok? ==>
      id in solverMaterials && solverMaterials[id] in solverToDpf &&
      r.value.materials == [solverToDpf[solverMaterials[id]]]
  {
    if id in layerIndices then
      var layerData := layerIndices[id];
      if id !in layerMaterials then Err(AssertionError)
      else if |layerData| == 0 then Err(IndexError)
      else if layerData[0] + 1 != |layerData| then Err(AssertionError)
      else Ok(Layering(true, layerData[0], layerMaterials[id]))
    else if solverToDpf != map[] then
      // `if mapdl_mat_id:` rejects both a missing id (None) and material 0.
      if id !in solverMaterials || solverMaterials[id] == 0 then Err(RuntimeError)
      else if solverMaterials[id] !in solverToDpf then Err(KeyError)
      else Ok(Layering(false, 1, [solverToDpf[solverMaterials[id]]]))
    else Ok(Layering(false, 1, []))
  }

  /** `corner_nodes_by_element_type[element_type]`, where -1 marks a type without corner nodes. */
  function CornerNodes(cornerTable: seq<int>, t: int): (r: Result<int>)
    ensures r.Ok? ==> r.value >= 0
    ensures r.Err? ==> r.error == IndexError || r.error == ValueError
  {
    match PyIndex(|cornerTable|, t)
    case None => Err(IndexError)
    case Some(p) => if cornerTable[p] < 0 then Err(ValueError) else Ok(cornerTable[p])
  }

  // ----- the MAPDL provider -----

  /** The property fields the MAPDL provider reads, one lookup per element id. */
  datatype MapdlFields = MapdlFields(
    layerIndices: map<int, seq<int>>,
    layerMaterials: map<int, seq<int>>,
    solverTypes: map<int, int>,
    dpfTypes: map<int, int>,
    keyopt8: map<int, int>,
    keyopt3: map<int, int>,
    cornerTable: seq<int>,
    solverMaterials: map<int, int>,
    solverToDpf: map<int, int>)

  /** The solver type and spot count, after the keyopt checks; None for an unsupported type. */
  function MapdlHeader(f: MapdlFields, id: int): (r: Result<Option<(int, int)>>)
    ensures (id !in f.keyopt8 || id !in f.keyopt3 || id !in f.solverTypes) ==> r == Err(RuntimeError)
    ensures r == Ok(None) <==> id in f.keyopt8 && id in f.keyopt3 && id in f.solverTypes && !SupportedMapdlType(f.solverTypes[id])
    ensures r.Ok? && r.value.Some? ==> (
      && r.value.value.0 == f.solverTypes[id] && SupportedMapdlType(f.solverTypes[id])
      && NSpots(f.solverTypes[id], f.keyopt8[id], f.keyopt3[id]) == Ok(r.value.value.1))
  {
    if id !in f.keyopt8 || id !in f.keyopt3 || id !in f.solverTypes then Err(RuntimeError)
    else
      var t := f.solverTypes[id];
      if !SupportedMapdlType(t) then Ok(None)
      else match NSpots(t, f.keyopt8[id], f.keyopt3[id])
        case Err(e) => Err(e)
        case Ok(n) => Ok(Some((t, n)))
  }

  /** `ElementInfoProvider.get_element_info` without its cache. */
  function DeriveElementInfo(f: MapdlFields, id: int): (r: Result<Option<ElementInfo>>)
    ensures (id !in f.keyopt8 || id !in f.keyopt3 || id !in f.solverTypes) ==> r == Err(RuntimeError)
    ensures r == Ok(None) <==> id in f.keyopt8 && id in f.keyopt3 && id in f.solverTypes && !SupportedMapdlType(f.solverTypes[id])
    ensures r.Ok? && r.value.Some? ==>
      var info := r.value.value;
      && info.id == id && info.elementType == f.solverTypes[id]
      && NSpots(info.elementType, f.keyopt8[id], f.keyopt3[id]) == Ok(info.nSpots)
      && (info.isShell <==> info.elementType == 181 || info.elementType == 281)
      && (info.isLayered <==> id in f.layerIndices)
      && info.nCornerNodes >= 0
      && info.nodesPerSpotPlane == (if !info.isLayered then -1 else if info.isShell then info.nCornerNodes else info.nCornerNodes / 2)
      && (info.isLayered ==> info.nLayers + 1 == |f.layerIndices[id]| && id in f.layerMaterials && info.dpfMaterialIds == f.layerMaterials[id])
      && (!info.isLayered ==> info.nLayers == 1)
  {
    match MapdlHeader(f, id)
    case Err(e) => Err(e)
    case Ok(None) => Ok(None)
    case Ok(Some((t, nSpots))) =>
      if id !in f.dpfTypes then Err(IndexError)
      else match LayeringOf(f.layerIndices, f.layerMaterials, f.solverMaterials, f.solverToDpf, id)
        case Err(e) => Err(e)
        case Ok(layering) =>
          match CornerNodes(f.cornerTable, f.dpfTypes[id])
          case Err(e) => Err(e)
          case Ok(corners) =>
            var isShell := t == 181 || t == 281;
            var perPlane := if !layering.isLayered then -1 else if isShell then corners else corners / 2;
            Ok(Some(ElementInfo(id, layering.nLayers, corners, nSpots, layering.isLayered, t,
                                layering.materials, isShell, perPlane)))
  }

  /** The MAPDL provider: the fields it reads and the per-id cache it fills. */
  class ElementInfoProvider {
    const fields: MapdlFields
    var cache: map<int, Option<ElementInfo>>

    /** Every cached answer is the one the derivation gives. */
    ghost predicate Valid()
      reads this
    {
      forall id :: id in cache ==> DeriveElementInfo(fields, id) == Ok(cache[id])
    }

    /** Without `solver_material_ids` the solver -> DPF material map stays empty. */
    constructor(base: MapdlFields, solverMaterialIds: Option<seq<MaterialEntry>>)
      ensures Valid() && cache == map[]
      ensures fields == base.(solverToDpf := if solverMaterialIds.None? then map[] else InvertMaterials(solverMaterialIds.value))
    {
      var solverToDpf: map<int, int> := map[];
      if solverMaterialIds.Some? {
        solverToDpf := BuildSolverMaterialMap(solverMaterialIds.value);
      }
      fields := base.(solverToDpf := solverToDpf);
      cache := map[];
    }

    /** A cached id is answered from the cache; every other answer is cached, including None. */
    method GetElementInfo(id: int) returns (r: Result<Option<ElementInfo>>)
      requires Valid()
      modifies this`cache
      ensures Valid()
      ensures r == DeriveElementInfo(fields, id)
      ensures id in old(cache) ==> r == Ok(old(cache)[id]) && cache == old(cache)
      ensures r.Ok? ==> cache == old(cache)[id := r.value]
      ensures r.Err? ==> cache == old(cache)
    {
      if id in cache {
        return Ok(cache[id]);
      }
      r := DeriveElementInfo(fields, id);
      if r.Ok? {
        cache := cache[id := r.value];
      }
    }
  }

  // ----- the LS-DYNA provider -----

  /** The property fields the LS-DYNA provider reads; element types are DPF types. */
  datatype DynaFields = DynaFields(
    layerIndices: map<int, seq<int>>,
    layerMaterials: map<int, seq<int>>,
    dpfTypes: map<int, int>,
    cornerTable: seq<int>,
    solverMaterials: map<int, int>,
    solverToDpf: map<int, int>)

  /** `ElementInfoProviderLSDyna.get_element_info` without its cache. */
  function DeriveDynaElementInfo(f: DynaFields, id: int): (r: Result<Option<ElementInfo>>)
    ensures id !in f.dpfTypes ==> r == Err(RuntimeError)
    ensures r == Ok(None) <==> id in f.dpfTypes && !SupportedDpfType(f.dpfTypes[id])
    ensures r.Ok? && r.value.Some? ==>
      var info := r.value.value;
      && info.id == id && info.elementType == f.dpfTypes[id]
      && info.nSpots == 1
      && info.isShell == IsShellDpf(info.elementType)
      && (info.isLayered <==> id in f.layerIndices)
      && info.nodesPerSpotPlane == (if info.isLayered then 1 else -1)
      && (!info.isLayered ==> info.nLayers == 1)
  {
    if id !in f.dpfTypes then Err(RuntimeError)
    else
      var t := f.dpfTypes[id];
      if !SupportedDpfType(t) then Ok(None)
      else match LayeringOf(f.layerIndices, f.layerMaterials, f.solverMaterials, f.solverToDpf, id)
        case Err(e) => Err(e)
        case Ok(layering) =>
          match CornerNodes(f.cornerTable, t)
          case Err(e) => Err(e)
          case Ok(corners) =>
            Ok(Some(ElementInfo(id, layering.nLayers, corners, 1, layering.isLayered, t,
                                layering.materials, IsShellDpf(t), if layering.isLayered then 1 else -1)))
  }

  /** The LS-DYNA provider: the solver material map is always built. */
  class ElementInfoProviderLSDyna {
    const fields: DynaFields
    var cache: map<int, Option<ElementInfo>>

    ghost predicate Valid()
      reads this
    {
      forall id :: id in cache ==> DeriveDynaElementInfo(fields, id) == Ok(cache[id])
    }

    constructor(base: DynaFields, solverMaterialIds: seq<MaterialEntry>)
      ensures Valid() && cache == map[]
      ensures fields == base.(solverToDpf := InvertMaterials(solverMaterialIds))
    {
      var solverToDpf := BuildSolverMaterialMap(solverMaterialIds);
      fields := base.(solverToDpf := solverToDpf);
      cache := map[];
    }

    method GetElementInfo(id: int) returns (r: Result<Option<ElementInfo>>)
      requires Valid()
      modifies this`cache
      ensures Valid()
      ensures r == DeriveDynaElementInfo(fields, id)
      ensures id in old(cache) ==> r == Ok(old(cache)[id]) && cache == old(cache)
      ensures r.Ok? ==> cache == old(cache)[id := r.value]
      ensures r.Err? ==> cache == old(cache)
    {
      if id in cache {
        return Ok(cache[id]);
      }
      r := DeriveDynaElementInfo(fields, id);
      if r.Ok? {
        cache := cache[id := r.value];
      }
    }
  }

  // ----- examples -----

  /** The fields of one layered 4-node shell (type 181, keyopt 8 = 2) with three layers of materials 1, 2, 1. */
  function ShellFields(): MapdlFields
  {
    MapdlFields(map[1 := [3, 0, 1, 2]], map[1 := [1, 2, 1]], map[1 := 181], map[1 := QuadShell4],
                map[1 := 2], map[1 := 0], seq(18, i => if i == QuadShell4 then 4 else -1), map[], map[])
  }

  /** The layered shell of the element-type tests: 3 layers, 4 corner nodes, 3 spots. */
  lemma ShellElementInfo()
    ensures DeriveElementInfo(ShellFields(), 1) == Ok(Some(ElementInfo(1, 3, 4, 3, true, 181, [1, 2, 1], true, 4)))
  {
    var f := ShellFields();
    assert MapdlHeader(f, 1) == Ok(Some((181, 3)));
    assert LayeringOf(f.layerIndices, f.layerMaterials, f.solverMaterials, f.solverToDpf, 1) == Ok(Layering(true, 3, [1, 2, 1]));
    assert |f.cornerTable| == 18 && f.cornerTable[QuadShell4] == 4;
    assert PyIndex(|f.cornerTable|, QuadShell4) == Some(QuadShell4);
    assert CornerNodes(f.cornerTable, QuadShell4) == Ok(4);
  }

  /** A homogeneous 185 solid with keyopt 3 = 0 has no spots, one layer and no per-plane node count. */
  lemma HomogeneousSolidElementInfo(corners: int)
    requires corners >= 0
    ensures DeriveElementInfo(MapdlFields(map[], map[], map[3 := 185], map[3 := Hex8], map[3 := 0], map[3 := 0],
                                          seq(12, i => if i == Hex8 then corners else -1), map[3 := 1], map[1 := 1]), 3)
      == Ok(Some(ElementInfo(3, 1, corners, 0, false, 185, [1], false, -1)))
  {
    var f := MapdlFields(map[], map[], map[3 := 185], map[3 := Hex8], map[3 := 0], map[3 := 0],
                         seq(12, i => if i == Hex8 then corners else -1), map[3 := 1], map[1 := 1]);
    assert MapdlHeader(f, 3) == Ok(Some((185, 0)));
    assert 3 !in f.layerIndices && 1 in f.solverToDpf && f.solverToDpf[1] == 1;
    assert 3 in f.solverMaterials && f.solverMaterials[3] == 1;
    assert LayeringOf(f.layerIndices, f.layerMaterials, f.solverMaterials, f.solverToDpf, 3) == Ok(Layering(false, 1, [1]));
    assert |f.cornerTable| == 12 && f.cornerTable[Hex8] == corners;
    assert PyIndex(|f.cornerTable|, Hex8) == Some(Hex8);
    assert CornerNodes(f.cornerTable, Hex8) == Ok(corners);
  }
}
