# pydpf-composites client-side bookkeeping, in Dafny

This project models the client side of pydpf-composites. That is the part of the library that does not run on the DPF server. It covers:

- **Indexing.** The dense id → position lookup over a DPF scoping, and the indexers that read one value, or one data-pointer slice, per entity id (`Indexer`, `LegacyIndexer`).
- **Elementary-index selection.** Which rows of an element's flat result array belong to the requested layers, spots and corner nodes (`Layout`, `SelectIndices`).
- **Lay-up information.**
  - `ElementInfo` derived from the element-type, keyopt, layer and material fields, with a per-id cache (`ElementInfoProviders`).
  - Analysis-ply names, the ply → material map and the per-element analysis plies (`LayupInfo`, `LegacyLayupInfo`).
- **Layered result queries.** The per-element (layer, spot, node) grid and the loop that collects selected rows (`SolutionQueries`).
- **Solid stacks.** The provider that groups solid elements into stacks through the thickness, and the level-by-level results of a stack (`SolidStackInfo`, `SolidStackResults`).
- **Sampling points.**
  - The three sampling-point classes (`LegacySamplingPoints`, `SamplingPoints`, `SolidStackSamplingPoints`).
  - The helpers that read the operator's JSON answer (`SamplingPointHelpers`).
  - The records they report (`SamplingPointTypes`).
- **Failure criteria.**
  - The configuration classes and their checked setters (`FailureCriterionBase`, `MaxStrain`, `Puck`, `Cuntze`, `Hashin`, `LaRC`, `FaceSheetWrinkling`, `Quadratic`).
  - The combined criterion, old and new (`CombinedCriterion`, `LegacyCombinedCriterion`).
  - The failure-mode enumeration (`FailureModes`).
- **Result definition.** The result definition sent to the evaluator (`ResultDefinitions`).
- **Server versions.** The version table and the comparisons against it (`Versions`).
- **Composite-model helpers.** Naming the failure output from a field name, merging reference-surface results, and the deprecation decorator (`CompositeModelHelpers`).
- **Data sources.** The Workbench folder scan and the DPF data sources built from its files (`DataSourceFiles`).

How the model is written:

- Python exceptions become the `Common.Error` values of a `Result`. Messages are dropped.
- Python dicts become association lists in insertion order (`Common.Put`, `Pop`, `Update`, `Lookup`).
- JSON becomes the `Common.Json` datatype.
- Objects whose attributes the library updates in place become classes:
  - the sampling points;
  - the criteria;
  - the combined criteria;
  - the result definition;
  - the files containers;
  - the element-info and solid-stack providers.
- Every module is declared in its own file. `common.dfy` holds the vocabulary the others share.

## Model

| member | source | states |
|---|---|---|
| Indexer.LastPosition | src/ansys/dpf/composites/_indexer.py:18-30 | the position the scatter `indices[ids] = arange(len(ids))` leaves for an id: an index holding that id with no later occurrence, or -1 when the id is absent |
| Indexer.SetupIndexById | src/ansys/dpf/composites/_indexer.py:18-30 | fails with ValueError exactly for an empty scoping; otherwise the lookup array has length max(ids) + 1, max_id is its last index, and each entry is the id's last position or -1 |
| Indexer.IdMapsToItsPosition | src/ansys/dpf/composites/_indexer.py:18-30 | with distinct ids, every id is within max_id and maps back to its own position |
| Indexer.MinusOneMarksAbsentIds | src/ansys/dpf/composites/_indexer.py:18-30 | an entry within range is -1 exactly when the id is not in the scoping |
| Indexer.ValueByIdFindsValue | src/ansys/dpf/composites/_indexer.py:57-105 | the single-value indexers return, for every id of the scoping, the value stored at that id's position |
| Indexer.ValueByIdAbsent | src/ansys/dpf/composites/_indexer.py:67-80 | an id missing from the scoping reads None, whether below or above max_id |
| Indexer.UncheckedValueLookup | src/ansys/dpf/composites/_indexer.py:108-124 | with no bounds check, a present id reads its value, an absent id below max_id reads the last value (position -1), and an id above max_id raises IndexError |
| Indexer.RowsByIdOfEntity | src/ansys/dpf/composites/_indexer.py:127-202 | the data-pointer indexers return, for entity k, the rows from its start up to the next entity's start; the appended pointer closes the last entity at the end of the data |
| Indexer.UncheckedRowsLookup | src/ansys/dpf/composites/_indexer.py:205-238 | the unchecked data-pointer lookup agrees with the checked one up to max_id and raises IndexError above it, where the checked one returns None |
| LegacyIndexer.LegacyAbsentIdReadsLastValue | src/ansys/dpf/composites/indexer.py:43-64 | the older single-value indexer checks only the upper bound, so an absent id below max_id reads the last value where the newer indexer reads None |
| LegacyIndexer.LegacyLookupCounterexample | src/ansys/dpf/composites/indexer.py:49-52 | scoping ids [1, 3] with values [10, 30]: id 2 reads 30 from the older indexer and None from the newer one |
| LegacyIndexer.LegacyAgreesOnPresentIds | src/ansys/dpf/composites/indexer.py:43-64 | for ids in the scoping, the older indexer reads the same value as the newer one |
| SelectIndices.RstSpotIndex | src/ansys/dpf/composites/select_indices.py:17-22 | the position of a spot within a layer of the result file, where the spots are stored bottom, top, middle |
| SelectIndices.RstSpotIndexInverse | src/ansys/dpf/composites/select_indices.py:17-22 | the spot index table inverts the file's spot order: bottom 0, top 1, middle 2 |
| SelectIndices.RstSpotIndices | src/ansys/dpf/composites/select_indices.py:75 | the requested spots map one by one, in order, to their positions in the result file |
| SelectIndices.NodeRow | src/ansys/dpf/composites/select_indices.py:117-119 | one spot plane contributes `spot_start + node` for each selected node, in order |
| SelectIndices.GetSelectedIndices | src/ansys/dpf/composites/select_indices.py:25-121 | the preallocated triple loop returns exactly the selection the specification function defines: defaults, empty collections, checks, then the rows |
| SelectIndices.FillNodes | src/ansys/dpf/composites/select_indices.py:116-119 | the innermost loop appends one spot plane's rows to the prefix already filled |
| SelectIndices.FillLayer | src/ansys/dpf/composites/select_indices.py:113-119 | the middle loop appends one layer's rows, one spot plane after the other, |spots|·|nodes| rows in all |
| SelectIndices.FillRows | src/ansys/dpf/composites/select_indices.py:108-121 | the outer loop fills the array of length |layers|·|spots|·|nodes| with all layers' rows in order |
| SelectIndices.LayerRowsLength | src/ansys/dpf/composites/select_indices.py:113-119 | one layer has |spots|·|nodes| rows |
| SelectIndices.AllRowsLength | src/ansys/dpf/composites/select_indices.py:108-110 | the selection has |layers|·|spots|·|nodes| rows, the size of the preallocated array |
| SelectIndices.LayerRowsAt | src/ansys/dpf/composites/select_indices.py:113-119 | row j·|nodes| + k of a layer is layer_start + spot_j·n_corner_nodes + node_k |
| SelectIndices.AllRowsAt | src/ansys/dpf/composites/select_indices.py:111-119 | row i·|spots|·|nodes| + off of the selection is row off of layer i |
| SelectIndices.EmptyCollectionSelectsNothing | src/ansys/dpf/composites/select_indices.py:59-76 | an explicitly empty layer, node or spot collection yields an empty selection, before any check runs and whatever the element |
| SelectIndices.SelectionShape | src/ansys/dpf/composites/select_indices.py:108-121 | a successful selection has |layers|·|spots|·|nodes| rows, and row (i·|spots| + j)·|nodes| + k is layer_i·n_corner_nodes·n_spots + rst(spot_j)·n_corner_nodes + node_k |
| SelectIndices.SpotRowsLength | src/ansys/dpf/composites/select_indices.py:108-110 | the rows of layers × spots × nodes number |layers|·|spots|·|nodes| |
| SelectIndices.SpotRowsAt | src/ansys/dpf/composites/select_indices.py:111-119 | the row formula at position (i·|spots| + j)·|nodes| + k, with the spot translated to its file position |
| SelectIndices.SelectedRows | src/ansys/dpf/composites/select_indices.py:59-121 | with explicit non-empty collections, a successful selection is the row list of exactly those collections |
| SelectIndices.AllRowsShape | src/ansys/dpf/composites/select_indices.py:111-119 | row i·width + j·|nodes| + k is layer_start(layer_i) + spot_j·n_corner_nodes + node_k |
| SelectIndices.SelectionFailsIff | src/ansys/dpf/composites/select_indices.py:78-106 | with checks on and non-empty collections, the selection fails (with RuntimeError) exactly when the element is not layered, has no spots, or some requested layer, node or spot reaches its bound |
| SelectIndices.NegativeLayerAccepted | src/ansys/dpf/composites/select_indices.py:84-89 | since only the maximum is compared, a negative layer index passes the checks and selects row layer·n_corner_nodes·n_spots |
| SelectIndices.NegativeLayerPassesChecks | src/ansys/dpf/composites/select_indices.py:84-89 | a single negative layer with node 0 and the bottom spot passes every check |
| SelectIndices.SingleRow | src/ansys/dpf/composites/select_indices.py:111-119 | one layer, spot 0 and node 0 select the single row at the layer's start |
| SelectIndices.NegativeLayerStart | src/ansys/dpf/composites/select_indices.py:112 | the row a negative layer selects lies before the element's first row |
| SelectIndices.SingleLayerSingleSpot | src/ansys/dpf/composites/select_indices.py:111-119 | one layer and one spot select one spot plane: one row per node |
| SelectIndices.SpotPlaneSelection | src/ansys/dpf/composites/select_indices.py:59-121 | one valid layer at one valid spot with all nodes selects one contiguous run of nodes_per_spot_plane rows at that spot plane's start |
| SelectIndices.ShellExampleLayerOneTop | src/ansys/dpf/composites/select_indices.py:59-121 | in a 4-node shell with 3 layers and 3 spots, layer 1 at the top spot selects rows 16 to 19 |
| SelectIndices.ShellExampleLayerZeroMiddle | src/ansys/dpf/composites/select_indices.py:59-121 | in the same shell, layer 0 at the middle spot selects rows 8 to 11 |
| SelectIndices.LayersWithMaterial | src/ansys/dpf/composites/select_indices.py:147-151 | the layer indices whose material is among the wanted ones, ascending, and no others |
| SelectIndices.NoMatchingLayer | src/ansys/dpf/composites/select_indices.py:147-151 | when no layer uses a wanted material, no layer index is collected |
| SelectIndices.AbsentMaterialSelectsNothing | src/ansys/dpf/composites/select_indices.py:124-152 | selecting by a material no layer uses returns an empty selection rather than an error |
| SelectIndices.FullLayerContiguous | src/ansys/dpf/composites/select_indices.py:111-119 | when spot planes hold all corner nodes, every spot and node of a layer form one contiguous block of n_spots·n_corner_nodes rows |
| SelectIndices.WholeLayerSelection | src/ansys/dpf/composites/select_indices.py:59-121 | selecting one whole layer of a shell returns that contiguous block, starting at the layer's offset |
| SelectIndices.ShellExampleMaterialLayers | src/ansys/dpf/composites/select_indices.py:147-151 | materials [1, 2, 1] with material 2 wanted select layer 1 only |
| SelectIndices.ShellExampleByMaterial | src/ansys/dpf/composites/select_indices.py:124-152 | material 2 in the example shell selects rows 12 to 23 |
| SelectIndices.AnalysisPlySelection | src/ansys/dpf/composites/select_indices.py:154-180 | a ply missing from the element raises RuntimeError, and only then; a ply in layer p selects every spot and node of that layer, row j·nodes + k being p·n_corner_nodes·n_spots + j·n_corner_nodes + k |
| Versions.Trim | src/ansys/dpf/composites/server_helpers/_versions.py:60-61 | the release numbers without their trailing zeros, so that `8.0` and `8` parse to the same version |
| Versions.CheckKey | src/ansys/dpf/composites/server_helpers/_versions.py:51-54 | a key outside the version table, and only such a key, raises RuntimeError |
| Versions.VersionOlderThan | src/ansys/dpf/composites/server_helpers/_versions.py:57-61 | the key is checked first (RuntimeError exactly for an unknown key); otherwise the answer is whether the server's release is older than the table's |
| Versions.VersionEqualOrLater | src/ansys/dpf/composites/server_helpers/_versions.py:64-68 | the same key check; otherwise the answer is whether the server's release is not older than the table's |
| Versions.KnownKeys | src/ansys/dpf/composites/server_helpers/_versions.py:36-48 | the table holds exactly the keys "5.0", "7.0", "7.1" and "8.0" |
| Versions.OlderXorEqualOrLater | src/ansys/dpf/composites/server_helpers/_versions.py:57-68 | both comparisons reject the same keys, and for a known key exactly one of them holds |
| Versions.LexTrichotomy | src/ansys/dpf/composites/server_helpers/_versions.py:61 | of two trimmed release numbers exactly one is older, or they are equal, and none is older than itself |
| Versions.LexTransitive | src/ansys/dpf/composites/server_helpers/_versions.py:61 | the version order is transitive |
| Versions.TrailingZerosIgnored | src/ansys/dpf/composites/server_helpers/_versions.py:61 | appending a zero release number makes a version neither older nor newer |
| ElementInfoProviders.NSpots | src/ansys/dpf/composites/layup_info/_element_info.py:103-125 | homogeneous 185/186 solids (keyopt 3 = 0) have no spots; otherwise keyopt 8 = 0, 1, 2 gives 0, 2, 3 spots where the type allows it, and every other combination raises RuntimeError |
| ElementInfoProviders.IsShell | src/ansys/dpf/composites/layup_info/_element_info.py:128-131 | defined exactly for the six supported MAPDL types (KeyError otherwise), and true exactly for 181 and 281 |
| ElementInfoProviders.IsShellDpf | src/ansys/dpf/composites/layup_info/_element_info.py:134-140 | true exactly for the four DPF shell types, all of which the LS-DYNA provider supports |
| ElementInfoProviders.BuildSolverMaterialMap | src/ansys/dpf/composites/layup_info/_element_info.py:228-233 | the nested loop builds the solver-to-DPF material map that the inversion function defines |
| ElementInfoProviders.InvertMaterialsStep | src/ansys/dpf/composites/layup_info/_element_info.py:230-233 | the map after one DPF material is the map before it, overwritten by that material's solver ids |
| ElementInfoProviders.InvertMaterialsLastWins | src/ansys/dpf/composites/layup_info/_element_info.py:230-233 | a solver material id listed by some DPF material maps to the last DPF material that lists it |
| ElementInfoProviders.InvertMaterialsUnlisted | src/ansys/dpf/composites/layup_info/_element_info.py:230-233 | a solver material id that no DPF material lists is not mapped |
| ElementInfoProviders.LayeringOf | src/ansys/dpf/composites/layup_info/_element_info.py:277-294 | an element is layered exactly when it has layer data, which must be consistent (first entry + 1 = its length); otherwise one layer, with the material from the solver map when that map is not empty |
| ElementInfoProviders.CornerNodes | src/ansys/dpf/composites/layup_info/_element_info.py:296-298 | the corner-node count of the DPF type, never negative; a type without one raises ValueError |
| ElementInfoProviders.MapdlHeader | src/ansys/dpf/composites/layup_info/_element_info.py:253-271 | a missing keyopt or element type raises RuntimeError, an unsupported MAPDL type answers None, and otherwise the spot count is the one the keyopts give |
| ElementInfoProviders.DeriveElementInfo | src/ansys/dpf/composites/layup_info/_element_info.py:237-317 | the MAPDL element info: its type and spot count, shell exactly for 181/281, layered exactly with layer data, n_layers + 1 = layer data length, and nodes per spot plane = corners for shells, corners / 2 for layered solids, -1 when not layered |
| ElementInfoProviders.ElementInfoProvider.constructor | src/ansys/dpf/composites/layup_info/_element_info.py:193-235 | the cache starts empty, and the solver material map is empty without `solver_material_ids` and is their inversion otherwise |
| ElementInfoProviders.ElementInfoProvider.GetElementInfo | src/ansys/dpf/composites/layup_info/_element_info.py:237-317 | a cached id is answered from the cache; otherwise the derived answer is returned and cached, a None as well; an error leaves the cache as it was, and every cached answer is the derived one |
| ElementInfoProviders.DeriveDynaElementInfo | src/ansys/dpf/composites/layup_info/_element_info.py:384-460 | the LS-DYNA element info: a missing type raises RuntimeError, an unsupported DPF type answers None, one spot, shell exactly for the DPF shell types, and one node per spot plane when layered |
| ElementInfoProviders.ElementInfoProviderLSDyna.constructor | src/ansys/dpf/composites/layup_info/_element_info.py:347-382 | the cache starts empty and the solver material map is always built |
| ElementInfoProviders.ElementInfoProviderLSDyna.GetElementInfo | src/ansys/dpf/composites/layup_info/_element_info.py:384-460 | the same cache discipline as the MAPDL provider, over the LS-DYNA derivation |
| ElementInfoProviders.ShellElementInfo | src/ansys/dpf/composites/layup_info/_element_info.py:237-317 | a layered 4-node 181 shell with keyopt 8 = 2 and three layers has 3 spots, 4 corner nodes and 4 nodes per spot plane |
| ElementInfoProviders.HomogeneousSolidElementInfo | src/ansys/dpf/composites/layup_info/_element_info.py:113-116 | a homogeneous 185 solid with keyopt 3 = 0 has no spots, one layer, its material from the solver map and -1 nodes per spot plane |
| LayupInfo.AllAnalysisPlyNames | src/ansys/dpf/composites/layup_info/_layup_info.py:26-32 | every returned name, prefixed with "AnalysisPly:", is a property field of the mesh, and every field with that prefix contributes its name with the prefix stripped; other fields are ignored |
| LayupInfo.GetAnalysisPly | src/ansys/dpf/composites/layup_info/_layup_info.py:35-46 | raises RuntimeError exactly when the check is on and "AnalysisPly:" + name is not a property field; otherwise the field name is the prefix followed by the ply name |
| LayupInfo.GetAnalysisPlyFindsListedNames | src/ansys/dpf/composites/layup_info/_layup_info.py:26-46 | the checked lookup finds a ply exactly when the ply is among the listed analysis-ply names |
| LayupInfo.FirstMissing | src/ansys/dpf/composites/layup_info/_layup_info.py:429-437 | None exactly when every requested field is available; otherwise the first requested field, in the given order, that is missing |
| LayupInfo.CheckProviderFields | src/ansys/dpf/composites/layup_info/_layup_info.py:423-437 | as written: the error names the first missing one of apdl_element_type, element_layer_indices and element_layered_material_ids, and the lay-up hint is appended exactly when it is element_layer_indices |
| LayupInfo.ProviderHintCounterexample | src/ansys/dpf/composites/layup_info/_layup_info.py:432 | a mesh lacking only element_layered_material_ids gets an error without the lay-up hint, because the hint list spells the field element_layer_material_ids |
| LayupInfo.CheckProviderFieldsCorrected | src/ansys/dpf/composites/layup_info/_layup_info.py:423-437 | the same check with the hint list naming the requested material field |
| LayupInfo.CorrectedHintForLayupFields | src/ansys/dpf/composites/layup_info/_layup_info.py:423-437 | corrected, the hint accompanies exactly the two fields the lay-up provider adds, and never apdl_element_type |
| LayupInfo.ElementInfoOf | src/ansys/dpf/composites/layup_info/_layup_info.py:325-385 | this package's element info: layered exactly with layer data, and no materials for a non-layered element since there is no solver material map |
| LayupInfo.PlyMaterial | src/ansys/dpf/composites/layup_info/_layup_info.py:210-224 | a ply none of whose elements is in the mesh has no material; a material that is found is the layer material of one of the ply's elements that is in the mesh and has lay-up information |
| LayupInfo.PlyMaterialShift | src/ansys/dpf/composites/layup_info/_layup_info.py:211-224 | what the scan of the ply's remaining elements finds is the material of one of the ply's elements |
| LayupInfo.DpfMaterialIdByAnalysisPly | src/ansys/dpf/composites/layup_info/_layup_info.py:178-226 | the loop over the plies returns the map the ply-by-ply specification defines, or the first error a ply's scan raises |
| LayupInfo.PlyMaterialMapStep | src/ansys/dpf/composites/layup_info/_layup_info.py:202-224 | one more ply extends the map by its material if it has one, leaves it alone if it has none, and passes on its error |
| LayupInfo.FindPlyMaterial | src/ansys/dpf/composites/layup_info/_layup_info.py:210-224 | the inner loop over one ply's elements returns the material the first deciding element gives, or None when no element decides |
| LayupInfo.PlyMaterialMapPropagatesError | src/ansys/dpf/composites/layup_info/_layup_info.py:202-224 | once the map of the first plies raises, the whole map raises the same error |
| LayupInfo.PlyOutsideMeshOmitted | src/ansys/dpf/composites/layup_info/_layup_info.py:205-210 | a ply with no element in the mesh is left out of the map |
| LayupInfo.AnalysisPlies | src/ansys/dpf/composites/layup_info/_layup_info.py:532-544 | None for an element without ply indices; otherwise the ply names in layer order, one per index, and KeyError exactly when some index has no name |
| LegacyLayupInfo.LegacyElementInfo | src/ansys/dpf/composites/layup_info.py:268-325 | the older element info agrees with the newer one wherever either succeeds; a missing DPF element type raises ValueError there where the newer code raises IndexError |
| LegacyLayupInfo.LegacyPlyMaterial | src/ansys/dpf/composites/layup_info.py:188-196 | a ply without elements raises IndexError; a material found is the layer material of the ply's first element |
| LegacyLayupInfo.LegacyPlyMaterialMap | src/ansys/dpf/composites/layup_info.py:183-198 | when the older map succeeds, every ply has an entry |
| LegacyLayupInfo.LegacyDpfMaterialIdByAnalysisPly | src/ansys/dpf/composites/layup_info.py:171-198 | the older loop returns the map the ply-by-ply specification defines, or the first error |
| LegacyLayupInfo.LegacyMapPropagatesError | src/ansys/dpf/composites/layup_info.py:188-196 | once the older map of the first plies raises, the whole map raises the same error |
| LegacyLayupInfo.LegacyPlyMaterialAgrees | src/ansys/dpf/composites/layup_info.py:188-196 | when a ply's first element is in the mesh, the older lookup and the newer scan give the same material |
| LegacyLayupInfo.LegacyMapAgrees | src/ansys/dpf/composites/layup_info.py:171-198 | where every ply's first element is in the mesh and the older map succeeds, both versions of the map are equal |
| SolutionQueries.UnravelRoundTrip | src/ansys/dpf/composites/solution_queries.py:40-59 | every flat index of the (layers, spots, nodes) grid decomposes row-major into in-range layer, spot and node digits that ravel back to it |
| SolutionQueries.RavelRoundTrip | src/ansys/dpf/composites/solution_queries.py:48-55 | ravelling in-range digits and decomposing the result gives back the same digits |
| SolutionQueries.DivDiv | src/ansys/dpf/composites/solution_queries.py:48-55 | dividing by the node count and then by the spot count is dividing by their product, the stride of a layer |
| SolutionQueries.LayeredDigits | src/ansys/dpf/composites/solution_queries.py:37-66 | `get_layered_data` of an element tags its n_spots·nodes·n_layers rows with aligned, in-range digits that ravel back to the row number |
| SolutionQueries.SelectionMatchesDigits | src/ansys/dpf/composites/solution_queries.py:40-59 | on a shell the two layouts agree: a row chosen by the index selection for an in-range layer, spot and node carries exactly those digits (the spot in result-file order) |
| SolutionQueries.DigitsOfRow | src/ansys/dpf/composites/select_indices.py:112-118 | a row written as layer, spot and node offsets with corner-node stride decomposes into those digits |
| SolutionQueries.SpotValues | src/ansys/dpf/composites/solution_queries.py:85-86 | the spot filter compares the enumeration values of the requested spots, one by one |
| SolutionQueries.Mask | src/ansys/dpf/composites/solution_queries.py:77-88 | the AND mask has one entry per row, true exactly when the row's digits are in every non-empty filter list |
| SolutionQueries.KeptPositions | src/ansys/dpf/composites/solution_queries.py:88-95 | the positions boolean indexing keeps: ascending, in range, and each one a true entry of the mask |
| SolutionQueries.KeptPositionsComplete | src/ansys/dpf/composites/solution_queries.py:88-95 | every true entry of the mask is among the kept positions |
| SolutionQueries.CompressAtKept | src/ansys/dpf/composites/solution_queries.py:91-94 | `xs[mask]` is `xs` read at the kept positions, in order |
| SolutionQueries.FilterKeepsMaskedRows | src/ansys/dpf/composites/solution_queries.py:77-95 | a filter result is the rows at the mask's kept positions, in order, the same positions for the data and all three index arrays |
| SolutionQueries.KeptIffPasses | src/ansys/dpf/composites/solution_queries.py:77-95 | a row is kept if and only if it passes every non-empty filter list |
| SolutionQueries.AllKept | src/ansys/dpf/composites/solution_queries.py:88-95 | a mask with no false entry keeps every position |
| SolutionQueries.SpotFilterUsesRawValues | src/ansys/dpf/composites/solution_queries.py:85-86 | asking for the bottom spot (value 1) keeps exactly the rows whose spot digit is 1, which is a layer's top plane in the result file |
| SolutionQueries.AnalysisPlySelectorNeverFails | src/ansys/dpf/composites/solution_queries.py:134-143 | the analysis-ply selector never raises, and an element the ply misses gets an empty selection |
| SolutionQueries.PickRows | src/ansys/dpf/composites/solution_queries.py:113 | fancy indexing succeeds exactly when every index is valid in Python's sense (negatives from the end), raising IndexError otherwise, and picks the indexed rows in order |
| SolutionQueries.ElementContribution | src/ansys/dpf/composites/solution_queries.py:103-120 | an entry an element appends carries the element's id and at least one value, and exactly one when an accumulator is given |
| SolutionQueries.ErrorPersists | src/ansys/dpf/composites/solution_queries.py:103-120 | once an element raises, the whole scan raises the same error |
| SolutionQueries.GetLayeredData | src/ansys/dpf/composites/solution_queries.py:98-122 | the scan loop returns the entries the element-by-element specification defines, in scoping order, or the first error |
| SolutionQueries.CollectedEntriesCount | src/ansys/dpf/composites/solution_queries.py:103-120 | the result field has at most one entry per element |
| SolutionQueries.CollectedEntriesSizes | src/ansys/dpf/composites/solution_queries.py:112-120 | no entry of the result field is empty, and with an accumulator each holds exactly one value |
| SolutionQueries.CollectedEntryFromLayered | src/ansys/dpf/composites/solution_queries.py:109-120 | every entry of the result field belongs to a layered element of the scan |
| SolutionQueries.NonLayeredElementsContributeNothing | src/ansys/dpf/composites/solution_queries.py:109-110 | a scan over non-layered elements only appends nothing |
| SolidStackInfo.IrfToRf | src/ansys/dpf/composites/layup_info/_solid_stack_info.py:41-46 | the reserve factor never exceeds the cap 1000; IRF 0 gives the cap; otherwise it is 1/IRF unless that exceeds the cap |
| SolidStackInfo.IrfToMos | src/ansys/dpf/composites/layup_info/_solid_stack_info.py:49-51 | the margin of safety is the reserve factor minus one |
| SolidStackInfo.IrfToRfAntitone | src/ansys/dpf/composites/layup_info/_solid_stack_info.py:41-46 | for positive IRFs, a larger IRF never gives a larger reserve factor |
| SolidStackInfo.MarginNegativeIffFailed | src/ansys/dpf/composites/layup_info/_solid_stack_info.py:41-51 | for a positive IRF the margin is negative exactly when IRF > 1 and zero exactly when IRF = 1 |
| SolidStackInfo.ElementPlies | src/ansys/dpf/composites/layup_info/_solid_stack_info.py:71-73 | one element's (ply, thickness) pairs pair the k-th ply with the k-th thickness; a missing element raises KeyError, too few thicknesses IndexError |
| SolidStackInfo.FlatPliesLength | src/ansys/dpf/composites/layup_info/_solid_stack_info.py:69-79 | the flattened list has one entry per analysis ply of each element (`number_of_analysis_plies`) |
| SolidStackInfo.FlatPliesAt | src/ansys/dpf/composites/layup_info/_solid_stack_info.py:69-75 | ply k of element i sits right after the plies of the elements below it |
| SolidStackInfo.FlatPliesFails | src/ansys/dpf/composites/layup_info/_solid_stack_info.py:69-75 | once an element raises, the whole property raises that error |
| SolidStackInfo.AnalysisPlyIdsAndThicknesses | src/ansys/dpf/composites/layup_info/_solid_stack_info.py:69-75 | the loop builds exactly the flattened bottom-to-top list, or raises its first error |
| SolidStackInfo.KeptElements | src/ansys/dpf/composites/layup_info/_solid_stack_info.py:119-124 | an entry's kept elements are no more than its entries, and each has analysis plies |
| SolidStackInfo.KeptElementsIff | src/ansys/dpf/composites/layup_info/_solid_stack_info.py:119-124 | an element is kept exactly when it is listed in the entry and has analysis plies |
| SolidStackInfo.StacksOf | src/ansys/dpf/composites/layup_info/_solid_stack_info.py:113-136 | one stack per entry of the property field, empty stacks included |
| SolidStackInfo.StacksOfStep | src/ansys/dpf/composites/layup_info/_solid_stack_info.py:130-136 | preparing one more entry appends its stack |
| SolidStackInfo.StackIndexStep | src/ansys/dpf/composites/layup_info/_solid_stack_info.py:125 | preparing one more entry maps each of its kept elements to that entry's index |
| SolidStackInfo.StackIndexValid | src/ansys/dpf/composites/layup_info/_solid_stack_info.py:113-136 | every mapped element is kept by the stack it maps to |
| SolidStackInfo.StackIndexLastWins | src/ansys/dpf/composites/layup_info/_solid_stack_info.py:125 | an element kept by stack i is mapped to i or to a later stack that also keeps it |
| SolidStackInfo.SolidStackProvider.constructor | src/ansys/dpf/composites/layup_info/_solid_stack_info.py:86-103 | the constructor prepares the stacks and the element-to-stack map from the property field |
| SolidStackInfo.SolidStackProvider.NumberOfStacks | src/ansys/dpf/composites/layup_info/_solid_stack_info.py:105-106 | the number of stacks is the number of entries in the property field |
| SolidStackInfo.SolidStackProvider.PrepareData | src/ansys/dpf/composites/layup_info/_solid_stack_info.py:113-136 | starting empty, the loop leaves the stacks and the map as StacksOf and StackIndex define them, and the map stays valid |
| SolidStackInfo.SolidStackProvider.CollectStack | src/ansys/dpf/composites/layup_info/_solid_stack_info.py:114-128 | one entry gives its stack and maps its kept elements to the index the stack will get |
| SolidStackInfo.SolidStackProvider.GetSolidStack | src/ansys/dpf/composites/layup_info/_solid_stack_info.py:138-146 | returns a stack exactly when the element is mapped, and that stack contains the element |
| SolidStackInfo.SolidStackProvider.GetSolidStacks | src/ansys/dpf/composites/layup_info/_solid_stack_info.py:148-161 | the loop returns DistinctStacks of the stacks found for the ids |
| SolidStackInfo.Found | src/ansys/dpf/composites/layup_info/_solid_stack_info.py:152-153 | the stack of each id as `get_solid_stack` returns it, one per id |
| SolidStackInfo.DistinctStacks | src/ansys/dpf/composites/layup_info/_solid_stack_info.py:148-161 | every kept stack is non-empty |
| SolidStackInfo.DistinctStacksFound | src/ansys/dpf/composites/layup_info/_solid_stack_info.py:148-161 | every kept stack was found for some id |
| SolidStackInfo.DistinctStacksApart | src/ansys/dpf/composites/layup_info/_solid_stack_info.py:155-160 | no kept stack contains the first element of a later kept stack, so no stack is kept twice |
| SolidStackInfo.DistinctStacksKeep | src/ansys/dpf/composites/layup_info/_solid_stack_info.py:151-160 | scanning one more id never drops or changes the stacks already kept |
| SolidStackInfo.DistinctStacksCover | src/ansys/dpf/composites/layup_info/_solid_stack_info.py:151-160 | the first element of every found non-empty stack is covered by some kept stack |
| SolidStackInfo.AllElementIdsMember | src/ansys/dpf/composites/layup_info/_solid_stack_info.py:160 | `processed_elements` holds every id of every kept stack |
| SolidStackInfo.AllElementIdsCovered | src/ansys/dpf/composites/layup_info/_solid_stack_info.py:160 | `processed_elements` holds nothing else |
| SolidStackInfo.NewSolidStackProvider | src/ansys/dpf/composites/layup_info/_solid_stack_info.py:86-103 | raises RuntimeError exactly when the mesh has no "solid_stacks" property field; otherwise a fresh, valid provider with the prepared stacks |
| SolidStackInfo.RowsFailure | src/ansys/dpf/composites/layup_info/_solid_stack_info.py:190-206 | succeeds exactly when there are rows and the mode at the first maximum IRF is a known failure mode; the result is read at that first maximum; otherwise ValueError |
| SolidStackInfo.FailureAtUnique | src/ansys/dpf/composites/layup_info/_solid_stack_info.py:194-206 | only one row, the first maximum, can be reported |
| SolidStackInfo.SpotFailure | src/ansys/dpf/composites/layup_info/_solid_stack_info.py:189-206 | a ply and spot report the failure of the rows `get_selected_indices` gives, and pass on its error |
| SolidStackInfo.PlyWiseAt | src/ansys/dpf/composites/layup_info/_solid_stack_info.py:186-189 | two entries per ply: ply p gives its bottom entry at 2p and its top entry at 2p+1 |
| SolidStackInfo.PlyWiseOk | src/ansys/dpf/composites/layup_info/_solid_stack_info.py:186-189 | the whole read succeeds exactly when every ply and spot succeeds |
| SolidStackInfo.PlyWiseFail | src/ansys/dpf/composites/layup_info/_solid_stack_info.py:186-189 | once a ply fails, the whole read fails with that error |
| SolidStackInfo.PlyWiseLength | src/ansys/dpf/composites/layup_info/_solid_stack_info.py:186-189 | a successful read has two entries per ply |
| SolidStackInfo.CollectPlyWise | src/ansys/dpf/composites/layup_info/_solid_stack_info.py:186-206 | the nested loop over plies and spots gives exactly PlyWise |
| SolidStackInfo.CollectElementFailures | src/ansys/dpf/composites/layup_info/_solid_stack_info.py:181-206 | one element's loop gives exactly ElementFailures |
| SolidStackInfo.LegacyStackFailuresLength | src/ansys/dpf/composites/layup_info/_solid_stack_info.py:181-208 | two failures, bottom and top, for every analysis ply of every element of the stack |
| SolidStackInfo.LegacyStackFailuresStep | src/ansys/dpf/composites/layup_info/_solid_stack_info.py:181-208 | one more element appends its failures, or fails the result with its error |
| SolidStackInfo.LegacyStackFailuresFail | src/ansys/dpf/composites/layup_info/_solid_stack_info.py:181-208 | once an element fails, the result fails with that element's error |
| SolidStackInfo.CollectLegacyElementFailures | src/ansys/dpf/composites/layup_info/_solid_stack_info.py:182-206 | one element's failures, read from its IRF and mode data |
| SolidStackInfo.GetThroughTheThicknessFailureResults | src/ansys/dpf/composites/layup_info/_solid_stack_info.py:164-210 | the loop over the stack's elements gives exactly the stack's failures, bottom to top |
| SolidStackInfo.ElementFailureIsFirstMax | src/ansys/dpf/composites/layup_info/_solid_stack_info.py:186-206 | the entry for ply p at a spot is the failure at the first maximum IRF of that ply and spot |
| SolidStackInfo.Mean | src/ansys/dpf/composites/layup_info/_solid_stack_info.py:247 | numpy's average is NaN exactly for no values |
| SolidStackInfo.MeanWithin | src/ansys/dpf/composites/layup_info/_solid_stack_info.py:247 | the average of values between two bounds lies between those bounds |
| SolidStackInfo.Column | src/ansys/dpf/composites/layup_info/_solid_stack_info.py:247 | `rows[:, c]` is component c of every row; a component past the width raises IndexError |
| SolidStackInfo.ColumnMeans | src/ansys/dpf/composites/layup_info/_solid_stack_info.py:246-248 | one average per requested component, in order; IndexError when any component is out of range |
| SolidStackInfo.SpotAverages | src/ansys/dpf/composites/layup_info/_solid_stack_info.py:240-248 | with components requested, the averages of the ply's rows at the spot |
| SolidStackInfo.SpotAveragesWithin | src/ansys/dpf/composites/layup_info/_solid_stack_info.py:240-248 | data between two bounds averages to NaN or to a value between those bounds |
| SolidStackInfo.PlyWiseWidth | src/ansys/dpf/composites/layup_info/_solid_stack_info.py:238-248 | when every read gives k values, every entry holds k values |
| SolidStackInfo.ElementAveragesWidth | src/ansys/dpf/composites/layup_info/_solid_stack_info.py:238-248 | each entry of an element's averages holds one average per component |
| SolidStackInfo.LegacyStackAveragesShape | src/ansys/dpf/composites/layup_info/_solid_stack_info.py:234-248 | two entries for every analysis ply of the stack, each with one average per component |
| SolidStackInfo.LegacyStackAveragesFail | src/ansys/dpf/composites/layup_info/_solid_stack_info.py:234-248 | once an element fails, the result fails with that element's error |
| SolidStackInfo.LegacyStackAveragesStep | src/ansys/dpf/composites/layup_info/_solid_stack_info.py:234-248 | one more element appends its averages, or fails the result with its error |
| SolidStackInfo.Transpose | src/ansys/dpf/composites/layup_info/_solid_stack_info.py:233-248 | list j collects component j of every entry, which is the list of the name at position j when the names are distinct |
| SolidStackInfo.FirstSeen | src/ansys/dpf/composites/layup_info/_solid_stack_info.py:233 | the keys of the dict of lists: exactly the given names, each once |
| SolidStackInfo.FirstSeenDistinct | src/ansys/dpf/composites/layup_info/_solid_stack_info.py:233 | with distinct names the keys are the names, in order |
| SolidStackInfo.Picks | src/ansys/dpf/composites/layup_info/_solid_stack_info.py:246-247 | one row appends one entry to a name's list per position carrying the name |
| SolidStackInfo.ByComponentName | src/ansys/dpf/composites/layup_info/_solid_stack_info.py:233-248 | the dict has one key per distinct name and no other key |
| SolidStackInfo.GatheredLength | src/ansys/dpf/composites/layup_info/_solid_stack_info.py:233-248 | a name's list holds one entry per row for each position carrying the name |
| SolidStackInfo.ByComponentNameDistinct | src/ansys/dpf/composites/layup_info/_solid_stack_info.py:233-248 | with distinct names, the list of the name at position j is column j of the rows, in order |
| SolidStackInfo.ByComponentNameShape | src/ansys/dpf/composites/layup_info/_solid_stack_info.py:233-248 | one list per first-seen name, each with n entries per position of the name; with distinct names one list of n entries per name, in order |
| SolidStackInfo.RepeatedNameMerged | src/ansys/dpf/composites/layup_info/_solid_stack_info.py:233-248 | a name given twice yields a single key whose list collects both positions' entries, two per row |
| SolidStackInfo.LegacyThroughTheThicknessResults | src/ansys/dpf/composites/layup_info/_solid_stack_info.py:213-250 | one list per distinct component name, in first-seen order, with two values per analysis ply of the stack for each position of the name; with distinct names one list per name, in order |
| SolidStackInfo.CollectLegacyAverages | src/ansys/dpf/composites/layup_info/_solid_stack_info.py:234-248 | the loop over the elements gives exactly LegacyStackAverages |
| SolidStackInfo.CollectLegacyElementAverages | src/ansys/dpf/composites/layup_info/_solid_stack_info.py:235-248 | one element's averages, as LegacyElementAverages gives them |
| SolidStackInfo.GetThroughTheThicknessResults | src/ansys/dpf/composites/layup_info/_solid_stack_info.py:213-250 | the loop gives exactly LegacyThroughTheThicknessResults |
| SolidStackResults.GetElementInfo | src/ansys/dpf/composites/solid_stack_results.py:56-62 | the element's layout when the provider has one, RuntimeError exactly when it has none |
| SolidStackResults.PlyCountMismatch | src/ansys/dpf/composites/solid_stack_results.py:120-123 | no error exactly when every element of the level has the first element's number of plies; a missing element raises KeyError, a different count RuntimeError |
| SolidStackResults.PlyCountMismatchFail | src/ansys/dpf/composites/solid_stack_results.py:121-123 | the check stops at the first element that fails |
| SolidStackResults.LevelMax | src/ansys/dpf/composites/solid_stack_results.py:125-137 | the running maximum fails only with ValueError (argmax of no data) or IndexError (no mode at the maximum) |
| SolidStackResults.LevelMaxIsFirstMax | src/ansys/dpf/composites/solid_stack_results.py:125-137 | the running maximum is at least -1 and at least every element's largest IRF; without a mode it is -1; with a mode it is reached first at element i, and the mode is that element's mode at its first argmax |
| SolidStackResults.LevelMaxFail | src/ansys/dpf/composites/solid_stack_results.py:127-137 | once an element fails, the running maximum fails with that element's error |
| SolidStackResults.Repeat | src/ansys/dpf/composites/solid_stack_results.py:146 | `n * [x]` holds n copies of x |
| SolidStackResults.MaxFailure | src/ansys/dpf/composites/solid_stack_results.py:139-144 | succeeds exactly when there is a known failure mode; it reports the IRF with its reserve factor and margin; otherwise ValueError |
| SolidStackResults.HomogeneousFailures | src/ansys/dpf/composites/solid_stack_results.py:119-146 | a homogeneous level gives two results for each ply of its first element |
| SolidStackResults.HomogeneousFailuresAreMax | src/ansys/dpf/composites/solid_stack_results.py:119-146 | every result of a homogeneous level is the failure at the level's maximum IRF, after the ply-count check passed |
| SolidStackResults.LevelFailuresLength | src/ansys/dpf/composites/solid_stack_results.py:89-146 | a level gives two results per ply, on the layered path and on the homogeneous path |
| SolidStackResults.StackFailuresStep | src/ansys/dpf/composites/solid_stack_results.py:89-146 | one more level appends its failures, or fails the result with its error |
| SolidStackResults.StackFailuresFail | src/ansys/dpf/composites/solid_stack_results.py:89-146 | once a level fails, the whole result fails with its error |
| SolidStackResults.StackFailuresLength | src/ansys/dpf/composites/solid_stack_results.py:89-148 | the output holds two failures per ply of the stack |
| SolidStackResults.CollectHomogeneousFailures | src/ansys/dpf/composites/solid_stack_results.py:119-146 | the loops of a homogeneous level give exactly HomogeneousFailures |
| SolidStackResults.CheckPlyCounts | src/ansys/dpf/composites/solid_stack_results.py:120-123 | the ply-count loop gives exactly PlyCountMismatch |
| SolidStackResults.CollectLevelMax | src/ansys/dpf/composites/solid_stack_results.py:125-137 | the running-maximum loop gives exactly LevelMax |
| SolidStackResults.CollectLevelFailures | src/ansys/dpf/composites/solid_stack_results.py:90-146 | a single layered element takes the layered path, every other level the homogeneous one |
| SolidStackResults.GetThroughTheThicknessFailureResults | src/ansys/dpf/composites/solid_stack_results.py:65-148 | the loop over the levels gives exactly StackFailures |
| SolidStackResults.FloatMean | src/ansys/dpf/composites/solid_stack_results.py:222 | numpy's average is NaN exactly when the list is empty or holds a NaN |
| SolidStackResults.FloatMeanWithin | src/ansys/dpf/composites/solid_stack_results.py:222 | numbers between two bounds average to a number between those bounds |
| SolidStackResults.ElementMeans | src/ansys/dpf/composites/solid_stack_results.py:209-217 | one entry per element of the level, with one average per component |
| SolidStackResults.ElementMeansAt | src/ansys/dpf/composites/solid_stack_results.py:209-217 | element i's entry holds the averages of its own data's components |
| SolidStackResults.ElementMeansFail | src/ansys/dpf/composites/solid_stack_results.py:209-217 | once an element fails, the averages fail with that element's error |
| SolidStackResults.LevelMeans | src/ansys/dpf/composites/solid_stack_results.py:221-222 | one level value per component |
| SolidStackResults.HomogeneousAveragesAreLevelMeans | src/ansys/dpf/composites/solid_stack_results.py:198-223 | a homogeneous level gives two entries per ply of its first element; each value is the average of the elements' averages for that component |
| SolidStackResults.ColumnMeanWithin | src/ansys/dpf/composites/solid_stack_results.py:216 | the average of one component of bounded data is NaN or within the bounds |
| SolidStackResults.ElementMeanWithin | src/ansys/dpf/composites/solid_stack_results.py:216-217 | an element's average of bounded data is NaN or within the bounds |
| SolidStackResults.HomogeneousAveragesWithin | src/ansys/dpf/composites/solid_stack_results.py:198-223 | bounded data gives a homogeneous level values that are NaN or within the bounds |
| SolidStackResults.LevelAveragesShape | src/ansys/dpf/composites/solid_stack_results.py:177-223 | a level gives two entries per ply, each with one average per component, on either path |
| SolidStackResults.StackAveragesStep | src/ansys/dpf/composites/solid_stack_results.py:177-223 | one more level appends its averages, or fails the result with its error |
| SolidStackResults.StackAveragesFail | src/ansys/dpf/composites/solid_stack_results.py:177-223 | once a level fails, the whole result fails with its error |
| SolidStackResults.StackAveragesShape | src/ansys/dpf/composites/solid_stack_results.py:177-223 | two entries per ply of the stack, each with one average per component |
| SolidStackResults.Columns | src/ansys/dpf/composites/solid_stack_results.py:191-192 | one tensor component per name, in order |
| SolidStackResults.ThroughTheThicknessResultsShape | src/ansys/dpf/composites/solid_stack_results.py:151-225 | one list per distinct component name, in first-seen order, holding two averages per ply of the stack for each position of the name; with distinct names one list per name, in order |
| SolidStackResults.CollectElementMeans | src/ansys/dpf/composites/solid_stack_results.py:209-217 | the element loop of a homogeneous level gives exactly ElementMeans |
| SolidStackResults.CollectHomogeneousAverages | src/ansys/dpf/composites/solid_stack_results.py:198-223 | the loops of a homogeneous level give exactly HomogeneousAverages |
| SolidStackResults.CollectLevelAverages | src/ansys/dpf/composites/solid_stack_results.py:178-223 | a single layered element takes the layered path, every other level the homogeneous one |
| SolidStackResults.CollectStackAverages | src/ansys/dpf/composites/solid_stack_results.py:177-223 | the loop over the levels gives exactly StackAverages |
| SolidStackResults.GetThroughTheThicknessResults | src/ansys/dpf/composites/solid_stack_results.py:151-225 | the level loop followed by one list per component gives exactly ThroughTheThicknessResults |
| LegacySamplingPoints.QuantityPath | src/ansys/dpf/composites/sampling_point.py:76-165 | each getter reads a two- or three-key path under the first result, under "layup" for the polar properties and "results" for everything else |
| LegacySamplingPoints.S23ReadsS23 | src/ansys/dpf/composites/sampling_point.py:101-105 | the `s23` getter of this sampling point reads the s23 stresses, not the s13 ones |
| LegacySamplingPoints.SamplingPoint.constructor | src/ansys/dpf/composites/sampling_point.py:31-56 | the name and result definition are stored; no results yet and not up to date |
| LegacySamplingPoints.SamplingPoint.Results | src/ansys/dpf/composites/sampling_point.py:71-74 | the cached results exactly when they are up to date and not empty, else None |
| LegacySamplingPoints.SamplingPoint.Get | src/ansys/dpf/composites/sampling_point.py:76-165 | None unless the results are available; otherwise the value at the quantity's path, where a missing key raises KeyError |
| LegacySamplingPoints.SamplingPoint.SetResultDefinition | src/ansys/dpf/composites/sampling_point.py:62-65 | stores the new definition and marks the results stale, so every getter answers None |
| LegacySamplingPoints.SamplingPoint.Update | src/ansys/dpf/composites/sampling_point.py:166-172 | no definition raises AttributeError and a failing `to_json` passes its error on, both leaving the state unchanged; otherwise the operator receives the definition, its answer is cached as up to date and the getters read from it |
| LegacySamplingPoints.NewSamplingPoint | src/ansys/dpf/composites/sampling_point.py:31-56 | RuntimeError exactly when the server or the operator is missing; otherwise a fresh sampling point with no results |
| SamplingPointHelpers.Follow | src/ansys/dpf/composites/_sampling_point_helpers.py:57-68 | an empty path gives the data itself; a missing key raises RuntimeError and a non-dict AttributeError; a step succeeds only on a dict holding the key |
| SamplingPointHelpers.FollowConcat | src/ansys/dpf/composites/_sampling_point_helpers.py:66-68 | following p + q is following p, then q from where p ends |
| SamplingPointHelpers.Subscript | src/ansys/dpf/composites/_sampling_point_helpers.py:63-69 | `data[k0][k1]...` gives the data for an empty path; it fails only with KeyError or TypeError |
| SamplingPointHelpers.SubscriptFollow | src/ansys/dpf/composites/_sampling_point_helpers.py:57-68 | subscripting succeeds exactly when following succeeds, with the same value; a KeyError corresponds exactly to a RuntimeError |
| SamplingPointHelpers.DataFromSpResults | src/ansys/dpf/composites/_sampling_point_helpers.py:48-69 | None or an empty list raise RuntimeError; otherwise the value reached from the first result along the keys |
| SamplingPointHelpers.Convert | src/ansys/dpf/composites/_sampling_point_helpers.py:32-43 | float and int conversions give numbers, an int a whole number, str a string; bool gives the Python truth value; a string converted to str is unchanged |
| SamplingPointHelpers.ConvertPly | src/ansys/dpf/composites/_sampling_point_helpers.py:43 | a converted ply has exactly the raw ply's keys |
| SamplingPointHelpers.ConvertPlyRejectsUnknownKey | src/ansys/dpf/composites/_sampling_point_helpers.py:32-43 | a ply with a field that has no declared type raises |
| SamplingPointHelpers.ConvertedFieldsTyped | src/ansys/dpf/composites/_sampling_point_helpers.py:32-43 | each converted field has its declared type: `is_core` a bool, `angle` and `thickness` numbers, `id` and `material` strings |
| SamplingPointHelpers.Iterate | src/ansys/dpf/composites/_sampling_point_helpers.py:28-29 | `len` and iteration of the value under `analysis_plies`: a list yields its items, a dict its keys, a string its characters, and a scalar raises TypeError |
| SamplingPointHelpers.RawPlies | src/ansys/dpf/composites/_sampling_point_helpers.py:25-29 | no results raise RuntimeError; a missing key raises KeyError and subscripting a non-dict TypeError; otherwise the value under `layup`/`analysis_plies` is iterated as Python does |
| SamplingPointHelpers.ConvertNonDictPlies | src/ansys/dpf/composites/_sampling_point_helpers.py:42-43 | a non-empty list of plies none of which is a dict raises AttributeError on `items` |
| SamplingPointHelpers.DictOrStringPliesRaise | src/ansys/dpf/composites/_sampling_point_helpers.py:25-43 | a non-empty dict or string under `analysis_plies` passes the emptiness check and its conversion raises AttributeError |
| SamplingPointHelpers.AnalysisPliesFromSp | src/ansys/dpf/composites/_sampling_point_helpers.py:19-45 | no results or no plies raise RuntimeError; a bad path passes its error on; otherwise the loop gives every ply converted, in order |
| SamplingPointHelpers.ConvertPliesStep | src/ansys/dpf/composites/_sampling_point_helpers.py:42-43 | converting one more raw ply appends it, or raises what its conversion raises |
| SamplingPointHelpers.ConvertPliesPropagatesError | src/ansys/dpf/composites/_sampling_point_helpers.py:42-43 | once a ply fails, the whole conversion fails with that error |
| SamplingPointHelpers.ConvertPliesLength | src/ansys/dpf/composites/_sampling_point_helpers.py:41-45 | the conversion keeps the number of plies |
| SamplingPointHelpers.ConvertPliesAt | src/ansys/dpf/composites/_sampling_point_helpers.py:42-43 | converted ply i comes from raw ply i and has its keys |
| SamplingPointHelpers.InsertSorted | src/ansys/dpf/composites/_sampling_point_helpers.py:80 | inserting adds one item, and the first item is the smaller of x and the old first item |
| SamplingPointHelpers.InsertSortedPermutes | src/ansys/dpf/composites/_sampling_point_helpers.py:80 | inserting adds exactly x |
| SamplingPointHelpers.InsertSortedAscending | src/ansys/dpf/composites/_sampling_point_helpers.py:80 | inserting into an ascending list keeps it ascending |
| SamplingPointHelpers.SortIntsPermutes | src/ansys/dpf/composites/_sampling_point_helpers.py:80 | `list.sort()` gives a permutation of its input |
| SamplingPointHelpers.SortIntsAscending | src/ansys/dpf/composites/_sampling_point_helpers.py:80 | `list.sort()` gives an ascending list |
| SamplingPointHelpers.SpotIndices | src/ansys/dpf/composites/_sampling_point_helpers.py:79 | KeyError exactly when some spot has no interface index; otherwise each spot's interface index, in order |
| SamplingPointHelpers.PlyIndicesLength | src/ansys/dpf/composites/_sampling_point_helpers.py:81-83 | one index per ply and selected spot |
| SamplingPointHelpers.PlyIndexAt | src/ansys/dpf/composites/_sampling_point_helpers.py:82-83 | the entry of ply p for the j-th selected spot sits at p*\|spots\|+j and is p*spots_per_ply plus that spot's index |
| SamplingPointHelpers.IndicesFromSp | src/ansys/dpf/composites/_sampling_point_helpers.py:72-85 | KeyError exactly when a spot is unmapped; otherwise the spots' sorted indices repeated for every ply, offset by the ply |
| SamplingPointHelpers.SortTwoZeroOne | src/ansys/dpf/composites/_sampling_point_helpers.py:80 | sorting [2, 0, 1] gives [0, 1, 2] |
| SamplingPointHelpers.AllSpotsOfTwoPlies | src/ansys/dpf/composites/_sampling_point_helpers.py:72-85 | with all three spots selected in any order, two plies give every row 0 to 5 in order |
| SamplingPointHelpers.TopSpotOfEveryPly | src/ansys/dpf/composites/_sampling_point_helpers.py:72-85 | the top spot of a three-spot result is row 3p+2 of every ply p |
| SamplingPointHelpers.TopSpotOfTwoSpotPlies | src/ansys/dpf/composites/_sampling_point_helpers.py:72-85 | the top spot of a two-spot result is row 2p+1 of every ply p |
| SamplingPointHelpers.SlotInRange | src/ansys/dpf/composites/_sampling_point_helpers.py:109-120 | spot i of ply p is row p*spots_per_ply+i, within the plies, and division recovers p and i |
| SamplingPointHelpers.Thicknesses | src/ansys/dpf/composites/_sampling_point_helpers.py:106-113 | one thickness per analysis ply |
| SamplingPointHelpers.StepsMakeThickness | src/ansys/dpf/composites/_sampling_point_helpers.py:117 | spots_per_ply - 1 steps make up the ply's thickness |
| SamplingPointHelpers.RescaledPliesLength | src/ansys/dpf/composites/_sampling_point_helpers.py:115-120 | the rewritten plies hold spots_per_ply offsets each |
| SamplingPointHelpers.Rescaled | src/ansys/dpf/composites/_sampling_point_helpers.py:115-120 | rewriting keeps the number of offsets |
| SamplingPointHelpers.RescaledPliesAt | src/ansys/dpf/composites/_sampling_point_helpers.py:118-120 | spot i of ply q moves to the ply's start plus i steps |
| SamplingPointHelpers.RescaledPliesTop | src/ansys/dpf/composites/_sampling_point_helpers.py:118-120 | the rewritten plies end where the next ply starts |
| SamplingPointHelpers.RescaledAt | src/ansys/dpf/composites/_sampling_point_helpers.py:115-120 | spot i of ply p of the rewritten offsets is the ply's start plus i steps |
| SamplingPointHelpers.RescaledKeepsFirstOffset | src/ansys/dpf/composites/_sampling_point_helpers.py:118 | the first offset stays where it is |
| SamplingPointHelpers.RescaledKeepsRest | src/ansys/dpf/composites/_sampling_point_helpers.py:115-120 | offsets above the last ply are not touched |
| SamplingPointHelpers.RescaledEvenSpacing | src/ansys/dpf/composites/_sampling_point_helpers.py:117-120 | neighbouring spots of a ply are one step apart |
| SamplingPointHelpers.RescaledPlyThickness | src/ansys/dpf/composites/_sampling_point_helpers.py:106-120 | every rewritten ply is exactly as thick as its (scaled) thickness |
| SamplingPointHelpers.RescaledPlyStartsOnPrevious | src/ansys/dpf/composites/_sampling_point_helpers.py:118 | every ply above the first starts at the rewritten top of the ply below |
| SamplingPointHelpers.PlyThicknesses | src/ansys/dpf/composites/_sampling_point_helpers.py:106-113 | IndexError exactly when the plies need more offsets than there are; otherwise each ply's last minus first offset, scaled for a core ply |
| SamplingPointHelpers.FillSpots | src/ansys/dpf/composites/_sampling_point_helpers.py:119-120 | writes one ply's spots in place and leaves the rest of the array as it was |
| SamplingPointHelpers.RewritePly | src/ansys/dpf/composites/_sampling_point_helpers.py:116-120 | rewrites ply `index` in place so the rewritten prefix grows by one ply, leaving the offsets above unchanged |
| SamplingPointHelpers.RewritePlies | src/ansys/dpf/composites/_sampling_point_helpers.py:115-120 | the loop leaves the array equal to Rescaled of its old contents |
| SamplingPointHelpers.OffsetsBySpots | src/ansys/dpf/composites/_sampling_point_helpers.py:88-122 | with factor 1 the offsets are read unchanged; with no plies RuntimeError; too few offsets IndexError; otherwise the array is rewritten in place with the scaled thicknesses and the selected offsets are read from it |
| SamplingPointHelpers.Reshape | src/ansys/dpf/composites/_sampling_point_helpers.py:131-136 | `reshape(n, w)` gives n rows of w items |
| SamplingPointHelpers.FlattenReshape | src/ansys/dpf/composites/_sampling_point_helpers.py:131-136 | the rows put back together are the flat array |
| SamplingPointHelpers.ReshapeAt | src/ansys/dpf/composites/_sampling_point_helpers.py:131-136 | item j of row p is item p*w+j of the flat array |
| SamplingPointHelpers.CriticalFailure | src/ansys/dpf/composites/_sampling_point_helpers.py:138-150 | a ply's critical failure is the mode and values at the first spot where its IRF peaks |
| SamplingPointHelpers.PlyWiseCriticalFailures | src/ansys/dpf/composites/_sampling_point_helpers.py:125-152 | ValueError exactly when the arrays do not reshape to the plies' rows; otherwise one critical failure per ply, from that ply's row |
| SamplingPointHelpers.CriticalFailureOfPly | src/ansys/dpf/composites/_sampling_point_helpers.py:131-150 | ply p's critical failure is the mode and values at flat position p*spots_per_ply + the row's first argmax |
| SamplingPoints.SpotsPerPlyOf | src/ansys/dpf/composites/sampling_point_2023r2.py:365-371 | succeeds exactly when the first result has a list of e1 strains and a non-empty list of analysis plies; the spots per ply are then the whole number of strain entries per ply |
| SamplingPoints.SpotsPerPly | src/ansys/dpf/composites/sampling_point_2023r2.py:368-371 | `int(len(e1) / len(plies))`: the largest count whose multiple of the plies fits in the strain entries; no plies or missing data fail |
| SamplingPoints.DivBounds | src/ansys/dpf/composites/sampling_point_2023r2.py:368-371 | the truncated quotient of non-negative counts is bracketed by the divisor |
| SamplingPoints.InterfaceIndicesInPly | src/ansys/dpf/composites/sampling_point_2023r2.py:373-380 | one spot per ply raises; two or three spots map bottom to 0 and top to the last spot, middle only for three; any other count keeps the old indices |
| SamplingPoints.RunSendsOnlyChanges | src/ansys/dpf/composites/sampling_point_2023r2.py:341-349 | with an injective digest, the operator always ends up holding the current definition, and the stored digest changes exactly when the definition differs from what the operator held |
| SamplingPoints.RunSucceeds | src/ansys/dpf/composites/sampling_point_2023r2.py:339-382 | `run` succeeds exactly when the definition converts, the operator answers one result, and that result has a spots-per-ply count other than 1; more or fewer results raise RuntimeError after caching them; success leaves up-to-date results with their spots per ply and interface indices |
| SamplingPoints.UpdateAndCheckUptodate | src/ansys/dpf/composites/sampling_point_2023r2.py:559-564 | up-to-date non-empty results are left alone; after a successful check the results are up to date and not empty, freshly read when they were not |
| SamplingPoints.S23AsWrittenAnswersS13 | src/ansys/dpf/composites/sampling_point_2023r2.py:227-231 | on a result whose s13 stress is 1 and whose s23 stress is 2, the `s23` path as written reads 1 and the intended path reads 2 |
| SamplingPoints.SamplingPoint.constructor | src/ansys/dpf/composites/sampling_point_2023r2.py:103-134 | the name and definition are stored; no digest, no operator input, no results, no spots, not up to date |
| SamplingPoints.SamplingPoint.SetName | src/ansys/dpf/composites/sampling_point_2023r2.py:141-144 | the name becomes the value |
| SamplingPoints.SamplingPoint.SetResultDefinition | src/ansys/dpf/composites/sampling_point_2023r2.py:151-155 | a definition without a single scope raises RuntimeError and changes nothing; otherwise it is stored and the results are stale |
| SamplingPoints.SamplingPoint.ElementId | src/ansys/dpf/composites/sampling_point_2023r2.py:157-168 | no scope raises IndexError; more than one element raises RuntimeError; no element gives None; otherwise the one element |
| SamplingPoints.SamplingPoint.SetElementId | src/ansys/dpf/composites/sampling_point_2023r2.py:170-173 | no scope raises IndexError and changes nothing; otherwise the first scope holds exactly the element, `element_id` reads it back, and the results are stale |
| SamplingPoints.SamplingPoint.Run | src/ansys/dpf/composites/sampling_point_2023r2.py:339-382 | the new state and the error are those RunOutcome gives for the definition's dict and the operator's answer |
| SamplingPoints.SamplingPoint.ReadResults | src/ansys/dpf/composites/sampling_point_2023r2.py:355-382 | reading the operator's answer gives the state and error ReadOutcome describes |
| SamplingPoints.SamplingPoint.UpdateAndCheckResults | src/ansys/dpf/composites/sampling_point_2023r2.py:559-564 | the new state and the error are those UpdateAndCheck gives |
| SamplingPoints.SamplingPoint.Get | src/ansys/dpf/composites/sampling_point_2023r2.py:197-328 | a getter brings the results up to date, then reads the value at its path under the first result, or passes the error on |
| SamplingPoints.SamplingPoint.S23AsWritten | src/ansys/dpf/composites/sampling_point_2023r2.py:227-231 | the `s23` getter as written reads the s13 stresses |
| SamplingPoints.SamplingPoint.S23 | src/ansys/dpf/composites/sampling_point_2023r2.py:227-231 | the `s23` getter as intended reads the s23 stresses |
| SamplingPoints.NewSamplingPoint | src/ansys/dpf/composites/sampling_point_2023r2.py:103-134 | RuntimeError exactly when the definition lacks a single scope or the server or the operator is missing; otherwise a fresh sampling point with no results |
| SolidStackSamplingPoints.StackOffsets | src/ansys/dpf/composites/sampling_point_solid_stack.py:475-479 | two offsets, bottom and top, per ply |
| SolidStackSamplingPoints.PlyOffsets | src/ansys/dpf/composites/sampling_point_solid_stack.py:450-479 | the loop builds exactly StackOffsets of the stack's plies |
| SolidStackSamplingPoints.OffsetsOfPly | src/ansys/dpf/composites/sampling_point_solid_stack.py:475-479 | ply i starts at the thickness of the plies below it (0 for the first), ends its own thickness higher, and starts where the ply below ends |
| SolidStackSamplingPoints.TopOffsetIsStackThickness | src/ansys/dpf/composites/sampling_point_solid_stack.py:475-479 | the last offset is the thickness of the whole stack |
| SolidStackSamplingPoints.TopSpotOffset | src/ansys/dpf/composites/sampling_point_solid_stack.py:554-592 | the top spot of ply p is row 2p+1, whose offset is the thickness of plies 0 to p |
| SolidStackSamplingPoints.TopOfPly | src/ansys/dpf/composites/sampling_point_solid_stack.py:475-479 | the top offset of ply p is the thickness of plies 0 to p |
| SolidStackSamplingPoints.ResolveTime | src/ansys/dpf/composites/sampling_point_solid_stack.py:383-390 | a set time is kept; otherwise the last stress time, which must equal the last strain time (RuntimeError), and an empty list raises IndexError |
| SolidStackSamplingPoints.SolidInterfaceIndices | src/ansys/dpf/composites/sampling_point_solid_stack.py:541-550 | only two spots per ply are accepted, mapping bottom to 0 and top to 1; any other count raises RuntimeError |
| SolidStackSamplingPoints.RunSucceeds | src/ansys/dpf/composites/sampling_point_solid_stack.py:360-552 | `run` succeeds exactly when the element is set, its stack is found, the time resolves, the stack's plies are readable and non-empty and there are two e1 strains per ply; it then holds the results built from the stack with their offsets, two spots per ply and the time used |
| SolidStackSamplingPoints.DivTwo | src/ansys/dpf/composites/sampling_point_solid_stack.py:536-539 | the truncated quotient is 2 exactly for counts between two and three times the plies |
| SolidStackSamplingPoints.RunFailureKeeps | src/ansys/dpf/composites/sampling_point_solid_stack.py:360-368 | a failing `run` keeps the up-to-date flag and the interface indices; an unset element changes nothing; a missing stack only clears the stored stack; both raise RuntimeError |
| SolidStackSamplingPoints.RunDefaultsTimeToLast | src/ansys/dpf/composites/sampling_point_solid_stack.py:383-390 | without a time, a successful `run` evaluates the last time of both the stresses and the strains |
| SolidStackSamplingPoints.UpdateAndCheckUptodate | src/ansys/dpf/composites/sampling_point_solid_stack.py:788-793 | up-to-date results are read unchanged; otherwise `run` is called and succeeds exactly when it does; the results read are the up-to-date ones |
| SolidStackSamplingPoints.S23AsWrittenAnswersS13 | src/ansys/dpf/composites/sampling_point_solid_stack.py:245-249 | when s13 and s23 differ, the `s23` getter as written returns the s13 stresses, unlike the intended one |
| SolidStackSamplingPoints.SolidStackSamplingPoint.constructor | src/ansys/dpf/composites/sampling_point_solid_stack.py:124-162 | the name, element, time, criterion and stack provider are stored; nothing is evaluated yet |
| SolidStackSamplingPoints.SolidStackSamplingPoint.SetName | src/ansys/dpf/composites/sampling_point_solid_stack.py:169-172 | the name becomes the value |
| SolidStackSamplingPoints.SolidStackSamplingPoint.SetElementId | src/ansys/dpf/composites/sampling_point_solid_stack.py:179-182 | the element becomes the value and the results are stale |
| SolidStackSamplingPoints.SolidStackSamplingPoint.SetCombinedCriterion | src/ansys/dpf/composites/sampling_point_solid_stack.py:189-192 | the criterion becomes the value and the results are stale |
| SolidStackSamplingPoints.SolidStackSamplingPoint.Run | src/ansys/dpf/composites/sampling_point_solid_stack.py:360-552 | the new state and the error are those RunOutcome gives for the element's stack and the evaluation |
| SolidStackSamplingPoints.SolidStackSamplingPoint.UpdateAndCheckResults | src/ansys/dpf/composites/sampling_point_solid_stack.py:788-793 | the new state and the results are those UpdateAndCheck gives |
| SolidStackSamplingPoints.SolidStackSamplingPoint.S13 | src/ansys/dpf/composites/sampling_point_solid_stack.py:239-243 | brings the results up to date, then returns their s13 stresses or the error |
| SolidStackSamplingPoints.SolidStackSamplingPoint.S23AsWritten | src/ansys/dpf/composites/sampling_point_solid_stack.py:245-249 | the `s23` getter as written returns the s13 stresses |
| SolidStackSamplingPoints.SolidStackSamplingPoint.S23 | src/ansys/dpf/composites/sampling_point_solid_stack.py:245-249 | the `s23` getter as intended returns the s23 stresses |
| SolidStackSamplingPoints.VersionKeyUnknown | src/ansys/dpf/composites/sampling_point_solid_stack.py:139-143 | "10.0" is not a key of the version table, so the check as written raises RuntimeError for every server |
| SolidStackSamplingPoints.NewSolidStackSamplingPointAsWritten | src/ansys/dpf/composites/sampling_point_solid_stack.py:139-143 | as written, the constructor raises RuntimeError whatever the server version |
| SolidStackSamplingPoints.NewSolidStackSamplingPoint | src/ansys/dpf/composites/sampling_point_solid_stack.py:124-162 | RuntimeError exactly when the server is older than 10.0; otherwise a fresh sampling point with nothing evaluated |
| FailureModes.FailureModeRoundTrip | src/ansys/dpf/composites/failure_criteria/_failure_mode_enum.py:6-84 | every code the enum names maps back from its name to the same code |
| FailureModes.FailureModeRoundTripByName | src/ansys/dpf/composites/failure_criteria/_failure_mode_enum.py:6-84 | every name the enum has maps back from its code to the same name, so no two members share a code |
| ResultDefinitions.DefaultScope | src/ansys/dpf/composites/result_definition.py:17-33 | a new scope covers every element and ply, has no mapping file and writes data for the full element scope |
| ResultDefinitions.MappingEntry | src/ansys/dpf/composites/result_definition.py:214-217 | the assembly mapping list is empty exactly when the scope has no mapping file, and otherwise holds that file |
| ResultDefinitions.ScopesList | src/ansys/dpf/composites/result_definition.py:230-235 | one dict per scope, in the scopes' order |
| ResultDefinitions.ResultDefinition.constructor | src/ansys/dpf/composites/result_definition.py:46-70 | every argument is stored as given, none checked |
| ResultDefinitions.ResultDefinition.SetExpression | src/ansys/dpf/composites/result_definition.py:86-92 | a supported expression is stored; anything else raises ValueError and keeps the old one |
| ResultDefinitions.ResultDefinition.SetMeasure | src/ansys/dpf/composites/result_definition.py:111-116 | a supported measure is stored; anything else raises ValueError and keeps the old one |
| ResultDefinitions.ResultDefinition.SetStressStrainEvalMode | src/ansys/dpf/composites/result_definition.py:158-166 | "rst_file" or "mapdl_live" is stored; anything else raises ValueError and keeps the old mode |
| ResultDefinitions.ResultDefinition.ToDict | src/ansys/dpf/composites/result_definition.py:190-238 | no combined criterion or an unsupported measure raise ValueError; otherwise the dict of the header, the criteria and the scopes |
| ResultDefinitions.Header | src/ansys/dpf/composites/result_definition.py:200-209 | `to_dict` writes eight items before the scopes |
| ResultDefinitions.ResultDictReadBack | src/ansys/dpf/composites/result_definition.py:200-238 | the dict reads back version 1, accumulator "max", the one measure, the criteria under "criteria" and the scopes, with nine items in all |
| FailureCriterionBase.StrLessTotal | src/ansys/dpf/composites/failure_criteria/_failure_criterion_base.py:69-77 | two different attribute names are ordered one way or the other, as `dir()` needs to sort them |
| FailureCriterionBase.StrLeqTransitive | src/ansys/dpf/composites/failure_criteria/_failure_criterion_base.py:69-77 | the string order `dir()` sorts by is transitive |
| FailureCriterionBase.SortedFirstLeast | src/ansys/dpf/composites/failure_criteria/_failure_criterion_base.py:69-77 | the first key of a sorted dict is the least of them |
| FailureCriterionBase.InsertByKey | src/ansys/dpf/composites/failure_criteria/_failure_criterion_base.py:69-77 | inserting one item keeps the keys sorted and adds exactly that item |
| FailureCriterionBase.SortByKey | src/ansys/dpf/composites/failure_criteria/_failure_criterion_base.py:69-77 | `dir()`'s order: the items sorted by key, a permutation of the input |
| FailureCriterionBase.CriterionDict | src/ansys/dpf/composites/failure_criteria/_failure_criterion_base.py:52-60 | `to_dict` holds exactly `active` and the class's own attributes, alphabetical, and never the name |
| FailureCriterionBase.SameItems | src/ansys/dpf/composites/failure_criteria/_failure_criterion_base.py:52-60 | the sorted dict has every item of the unsorted one |
| FailureCriterionBase.ShortDescr | src/ansys/dpf/composites/failure_criteria/_failure_criterion_base.py:81-83 | the short description is `ClassName(name='…', active=…)` with the name in its place |
| MaxStrain.Defaults | src/ansys/dpf/composites/failure_criteria/_max_strain.py:87-112 | the defaults are admissible limits |
| MaxStrain.Attributes | src/ansys/dpf/composites/failure_criteria/_max_strain.py:87-117 | the attributes exclude the name and `active` |
| MaxStrain.MaxStrainCriterion.SetEXt | src/ansys/dpf/composites/failure_criteria/_max_strain.py:200-203 | a negative tensile limit raises ValueError and keeps the old limits; otherwise only eXt changes; admissible limits stay admissible |
| MaxStrain.MaxStrainCriterion.SetEXc | src/ansys/dpf/composites/failure_criteria/_max_strain.py:208-211 | a positive compressive limit raises ValueError and keeps the old limits; otherwise only eXc changes; admissible limits stay admissible |
| MaxStrain.MaxStrainCriterion.SetEYt | src/ansys/dpf/composites/failure_criteria/_max_strain.py:216-219 | a negative tensile limit raises ValueError; otherwise only eYt changes; admissible limits stay admissible |
| MaxStrain.MaxStrainCriterion.SetEYc | src/ansys/dpf/composites/failure_criteria/_max_strain.py:224-227 | a positive compressive limit raises ValueError; otherwise only eYc changes; admissible limits stay admissible |
| MaxStrain.MaxStrainCriterion.SetEZt | src/ansys/dpf/composites/failure_criteria/_max_strain.py:232-235 | a negative tensile limit raises ValueError; otherwise only eZt changes; admissible limits stay admissible |
| MaxStrain.MaxStrainCriterion.SetEZc | src/ansys/dpf/composites/failure_criteria/_max_strain.py:240-243 | a positive compressive limit raises ValueError; otherwise only eZc changes; admissible limits stay admissible |
| MaxStrain.MaxStrainCriterion.SetESxy | src/ansys/dpf/composites/failure_criteria/_max_strain.py:248-251 | a negative shear limit raises ValueError; otherwise only eSxy changes; admissible limits stay admissible |
| MaxStrain.MaxStrainCriterion.SetESxz | src/ansys/dpf/composites/failure_criteria/_max_strain.py:256-259 | a negative shear limit raises ValueError; otherwise only eSxz changes; admissible limits stay admissible |
| MaxStrain.MaxStrainCriterion.SetESyz | src/ansys/dpf/composites/failure_criteria/_max_strain.py:264-267 | a negative shear limit raises ValueError; otherwise only eSyz changes; admissible limits stay admissible |
| MaxStrain.NewMaxStrainCriterion | src/ansys/dpf/composites/failure_criteria/_max_strain.py:87-117 | construction raises ValueError exactly when a limit has the wrong sign; otherwise a fresh active "Max Strain" criterion with the given settings |
| Puck.Defaults | src/ansys/dpf/composites/failure_criteria/_puck.py:101-124 | the defaults pass every check: dimension in 1 to 3, s and M in [0, 1) |
| Puck.Attributes | src/ansys/dpf/composites/failure_criteria/_puck.py:101-132 | the attributes exclude the name and `active` |
| Puck.PuckCriterion.SetDim | src/ansys/dpf/composites/failure_criteria/_puck.py:167-173 | 1, 2 or 3 are stored; anything else raises AttributeError and keeps the old value; the invariant holds |
| Puck.PuckCriterion.SetS | src/ansys/dpf/composites/failure_criteria/_puck.py:214-217 | a value in [0, 1) is stored; anything else raises AttributeError and keeps the old one; the invariant holds |
| Puck.PuckCriterion.SetM | src/ansys/dpf/composites/failure_criteria/_puck.py:223-226 | a value in [0, 1) is stored; anything else raises AttributeError and keeps the old one; the invariant holds |
| Puck.NewPuckCriterion | src/ansys/dpf/composites/failure_criteria/_puck.py:101-132 | construction raises AttributeError exactly when dim, s or M fail their checks; otherwise a fresh active "Puck" criterion with the given settings |
| Cuntze.Defaults | src/ansys/dpf/composites/failure_criteria/_cuntze.py:71-94 | the defaults pass every check |
| Cuntze.Attributes | src/ansys/dpf/composites/failure_criteria/_cuntze.py:71-94 | the attributes exclude the name and `active` |
| Cuntze.CuntzeCriterion.SetDim | src/ansys/dpf/composites/failure_criteria/_cuntze.py:129-135 | 2 or 3 are stored; anything else raises AttributeError and keeps the old value |
| Cuntze.CuntzeCriterion.SetB32 | src/ansys/dpf/composites/failure_criteria/_cuntze.py:176-181 | b32 below 1 raises ValueError and changes nothing; otherwise b32 is stored and the fracture plane angle follows from it |
| Cuntze.CuntzeCriterion.SetFracturePlaneAngle | src/ansys/dpf/composites/failure_criteria/_cuntze.py:186-191 | an angle of 45 degrees or less raises ValueError and changes nothing; otherwise the angle is stored and b32 follows from it |
| Cuntze.NewCuntzeCriterion | src/ansys/dpf/composites/failure_criteria/_cuntze.py:71-94 | construction fails exactly when a check fails, AttributeError for a bad dimension and ValueError otherwise; the angle, set after b32, decides b32 |
| Hashin.Defaults | src/ansys/dpf/composites/failure_criteria/_hashin.py:42-61 | the default dimension is 2 or 3 |
| Hashin.Attributes | src/ansys/dpf/composites/failure_criteria/_hashin.py:42-61 | the attributes exclude the name and `active` |
| Hashin.HashinCriterion.SetDim | src/ansys/dpf/composites/failure_criteria/_hashin.py:83-89 | 2 or 3 are stored; anything else raises AttributeError and keeps the old value |
| Hashin.NewHashinCriterion | src/ansys/dpf/composites/failure_criteria/_hashin.py:42-61 | construction raises AttributeError exactly for a dimension other than 2 or 3; otherwise a fresh active "Hashin" criterion |
| LaRC.Defaults | src/ansys/dpf/composites/failure_criteria/_larc.py:51-68 | the default dimension is 2 or 3 |
| LaRC.Attributes | src/ansys/dpf/composites/failure_criteria/_larc.py:51-68 | the attributes exclude the name and `active` |
| LaRC.LaRCCriterion.SetDim | src/ansys/dpf/composites/failure_criteria/_larc.py:97-104 | 2 or 3 are stored; anything else raises AttributeError and keeps the old value |
| LaRC.NewLaRCCriterion | src/ansys/dpf/composites/failure_criteria/_larc.py:51-68 | construction raises AttributeError exactly for a dimension other than 2 or 3; otherwise a fresh active "LaRC" criterion |
| FaceSheetWrinkling.Defaults | src/ansys/dpf/composites/failure_criteria/_face_sheet_wrinkling.py:30-41 | the default coefficients are positive |
| FaceSheetWrinkling.Attributes | src/ansys/dpf/composites/failure_criteria/_face_sheet_wrinkling.py:30-41 | the attributes exclude the name and `active` |
| FaceSheetWrinkling.FaceSheetWrinklingCriterion.SetHomogeneousCoreCoeff | src/ansys/dpf/composites/failure_criteria/_face_sheet_wrinkling.py:46-50 | a positive value is stored; otherwise ValueError and the old value stays |
| FaceSheetWrinkling.FaceSheetWrinklingCriterion.SetHoneycombCoreCoeff | src/ansys/dpf/composites/failure_criteria/_face_sheet_wrinkling.py:55-59 | a positive value is stored; otherwise ValueError and the old value stays |
| FaceSheetWrinkling.NewFaceSheetWrinklingCriterion | src/ansys/dpf/composites/failure_criteria/_face_sheet_wrinkling.py:30-41 | construction raises ValueError exactly when a coefficient is not positive; otherwise a fresh active "Face Sheet Wrinkling" criterion with the given values |
| Quadratic.Attributes | src/ansys/dpf/composites/failure_criteria/_quadratic_failure_criterion.py:15-40 | the attributes exclude the name and `active` |
| Quadratic.QuadraticCriterion.SetDim | src/ansys/dpf/composites/failure_criteria/_quadratic_failure_criterion.py:31-37 | 2 or 3 are stored; anything else raises AttributeError and keeps the old value |
| Quadratic.NewQuadraticCriterion | src/ansys/dpf/composites/failure_criteria/_quadratic_failure_criterion.py:15-20 | construction raises AttributeError exactly for a dimension other than 2 or 3; otherwise the given name, flag, weight and dimension |
| Quadratic.NewTsaiWuCriterion | src/ansys/dpf/composites/failure_criteria/_tsai_wu.py:19-21 | the same, named "Tsai Wu" |
| Quadratic.NewTsaiHillCriterion | src/ansys/dpf/composites/failure_criteria/_tsai_hill.py:19-21 | the same, named "Tsai Hill" |
| Quadratic.NewHoffmanCriterion | src/ansys/dpf/composites/failure_criteria/_hoffman.py:19-21 | the same, named "Hoffman" |
| Quadratic.DefaultDict | src/ansys/dpf/composites/failure_criteria/_quadratic_failure_criterion.py:15-40 | a default quadratic criterion's dict is exactly active, dim and wf, in that order |
| CombinedCriterion.CriterionKey | src/ansys/dpf/composites/failure_criteria/_combined_failure_criterion.py:117 | a key keeps the name's length, has no spaces and no upper-case letters, and leaves every other character as it was |
| CombinedCriterion.CriterionKeyIdempotent | src/ansys/dpf/composites/failure_criteria/_combined_failure_criterion.py:117 | normalising a key again changes nothing |
| CombinedCriterion.KnownCriterionKeys | src/ansys/dpf/composites/failure_criteria/_combined_failure_criterion.py:112-121 | the evaluator's criterion names map to their keys ("Max Strain" to "max_strain", and so on) |
| CombinedCriterion.ByName | src/ansys/dpf/composites/failure_criteria/_combined_failure_criterion.py:77-78 | the items `insert` writes are keyed by each criterion's own name |
| CombinedCriterion.CombinedDictKeys | src/ansys/dpf/composites/failure_criteria/_combined_failure_criterion.py:112-121 | the combined dict has exactly one key per normalised criterion name |
| CombinedCriterion.CombinedDictLastWins | src/ansys/dpf/composites/failure_criteria/_combined_failure_criterion.py:112-121 | under each key sits the dict of the last criterion whose name normalises to it |
| CombinedCriterion.CombinedFailureCriterion.constructor | src/ansys/dpf/composites/failure_criteria/_combined_failure_criterion.py:25-43 | the registry is the given criteria inserted in order, the name is stored, and the registry invariant holds |
| CombinedCriterion.CombinedFailureCriterion.Insert | src/ansys/dpf/composites/failure_criteria/_combined_failure_criterion.py:60-78 | None changes nothing; a criterion goes in under its name, replacing one of the same name; the invariant is kept |
| CombinedCriterion.CombinedFailureCriterion.Remove | src/ansys/dpf/composites/failure_criteria/_combined_failure_criterion.py:80-101 | an absent key raises KeyError and changes nothing; a present one is popped and returned; the invariant is kept |
| CombinedCriterion.CombinedFailureCriterion.ToDict | src/ansys/dpf/composites/failure_criteria/_combined_failure_criterion.py:103-121 | the result is the combined dict of the registry |
| CombinedCriterion.InsertSameNameKeepsCount | src/ansys/dpf/composites/failure_criteria/_combined_failure_criterion.py:65-78 | inserting a criterion under a registered name keeps the count and makes it the entry for that name |
| LegacyCombinedCriterion.MergedDictKeys | src/ansys/dpf/composites/failure_criteria/combined_failure_criterion.py:69-80 | the merged dict holds exactly the keys of the registered criteria's dicts |
| LegacyCombinedCriterion.CombinedFailureCriterion.constructor | src/ansys/dpf/composites/failure_criteria/combined_failure_criterion.py:22-25 | as written: an empty registry and no stored name |
| LegacyCombinedCriterion.CombinedFailureCriterion.GetName | src/ansys/dpf/composites/failure_criteria/combined_failure_criterion.py:27-28 | an unset name raises AttributeError; a set one is answered |
| LegacyCombinedCriterion.CombinedFailureCriterion.SetName | src/ansys/dpf/composites/failure_criteria/combined_failure_criterion.py:30-31 | the name is stored |
| LegacyCombinedCriterion.CombinedFailureCriterion.Insert | src/ansys/dpf/composites/failure_criteria/combined_failure_criterion.py:39-53 | None changes nothing; a criterion goes in under its name, replacing one of the same name; the invariant is kept |
| LegacyCombinedCriterion.CombinedFailureCriterion.Remove | src/ansys/dpf/composites/failure_criteria/combined_failure_criterion.py:55-67 | an absent key answers None and changes nothing; a present one is popped and returned |
| LegacyCombinedCriterion.CombinedFailureCriterion.ToDict | src/ansys/dpf/composites/failure_criteria/combined_failure_criterion.py:69-80 | the criteria's dicts merged in registry order, wrapped under "criteria" |
| LegacyCombinedCriterion.NameAfterConstruction | src/ansys/dpf/composites/failure_criteria/combined_failure_criterion.py:22-28 | as written: a freshly built criterion's name cannot be read, whatever name it was given |
| LegacyCombinedCriterion.NameAfterNamedConstruction | src/ansys/dpf/composites/failure_criteria/combined_failure_criterion.py:22-31 | as intended: a freshly built criterion answers the name it was given |
| CompositeModelHelpers.FailureEnumFromName | src/ansys/dpf/composites/_composite_model_impl_helpers.py:85-110 | an unclassifiable name raises RuntimeError; a reference-surface output is only answered for a name ending in the suffix |
| CompositeModelHelpers.FailureFieldsClassified | src/ansys/dpf/composites/_composite_model_impl_helpers.py:85-96 | failure-mode and failure-value names map to their reference-surface output exactly when they end in the suffix, and to the plain one otherwise |
| CompositeModelHelpers.OtherFieldsClassified | src/ansys/dpf/composites/_composite_model_impl_helpers.py:98-110 | layer and element outputs ignore the suffix; a name with none of the known prefixes, and only such a name, raises |
| CompositeModelHelpers.FieldsAt | src/ansys/dpf/composites/_composite_model_impl_helpers.py:73 | every field answered for a time id is a field of the container at that time id |
| CompositeModelHelpers.LabelAll | src/ansys/dpf/composites/_composite_model_impl_helpers.py:72-76 | all fields labelled in order with their output and time id, or RuntimeError exactly when some field's name is unclassifiable |
| CompositeModelHelpers.AddToOutput | src/ansys/dpf/composites/_composite_model_impl_helpers.py:72-76 | the loop adds the container's fields at the time id to the output, each under the label space the labelling function gives it, or raises as the labelling does |
| CompositeModelHelpers.LabelAllFails | src/ansys/dpf/composites/_composite_model_impl_helpers.py:74-76 | once a prefix of the fields fails to label, the whole list fails with that error |
| CompositeModelHelpers.MergeContainers | src/ansys/dpf/composites/_composite_model_impl_helpers.py:53-82 | different label multisets, or different time-id multisets, raise AssertionError; otherwise the output container built by adding, per reference time id, the reference fields and then the others |
| CompositeModelHelpers.MergedFieldsLabelled | src/ansys/dpf/composites/_composite_model_impl_helpers.py:68-82 | every merged field comes from one of the two containers at one of the time ids and carries the output its name gives |
| CompositeModelHelpers.MergedLength | src/ansys/dpf/composites/_composite_model_impl_helpers.py:78-80 | one field is added for every field of both containers at the time ids |
| CompositeModelHelpers.AddField | src/ansys/dpf/composites/_composite_model_impl_helpers.py:76 | `add_field` stores the field under its label space: the spaces held grow by that one, and a new space is appended at the end |
| CompositeModelHelpers.AddFieldGet | src/ansys/dpf/composites/_composite_model_impl_helpers.py:76 | after `add_field` its label space holds the new field and every other label space is unchanged |
| CompositeModelHelpers.AddFieldDistinct | src/ansys/dpf/composites/_composite_model_impl_helpers.py:76 | `add_field` never stores two fields under one label space |
| CompositeModelHelpers.AddAllConcat | src/ansys/dpf/composites/_composite_model_impl_helpers.py:78-80 | adding two runs of fields one after the other is adding their concatenation |
| CompositeModelHelpers.AddAllLastWins | src/ansys/dpf/composites/_composite_model_impl_helpers.py:68-80 | the output container holds, under every label space, the last field added with it, and each label space once |
| CompositeModelHelpers.AddAllDistinct | src/ansys/dpf/composites/_composite_model_impl_helpers.py:68-80 | when no two added fields share a label space, the output holds all of them in the order added |
| CompositeModelHelpers.MergedFails | src/ansys/dpf/composites/_composite_model_impl_helpers.py:78-80 | once a prefix of the time ids fails to merge, the whole merge fails with that error |
| CompositeModelHelpers.DeprecatedLabelCall | src/ansys/dpf/composites/_composite_model_impl_helpers.py:35-50 | the wrapped function's result is passed through unchanged; the warning is given exactly when the deprecated keyword is passed with a truthy value |
| DataSourceFiles.LastDot | src/ansys/dpf/composites/data_sources.py:190-191 | the answer is -1 or the position of a dot after which no dot follows |
| DataSourceFiles.Suffix | src/ansys/dpf/composites/data_sources.py:190-191 | the stem and the suffix make up the name; a non-empty suffix is a dot followed by at least one character and no further dot |
| DataSourceFiles.LastDotAt | src/ansys/dpf/composites/data_sources.py:190-191 | a dot with no dot after it is the one the search answers |
| DataSourceFiles.PrefixesExclusive | src/ansys/dpf/composites/data_sources.py:206-217 | two prefixes that differ at some position never both start a name |
| DataSourceFiles.KindsDisjoint | src/ansys/dpf/composites/data_sources.py:190-217 | no file is of two kinds: rst, MatML, shell definition and solid model definition exclude each other |
| DataSourceFiles.ExtDefinitionSkipped | src/ansys/dpf/composites/data_sources.py:198-209 | a shell definition named with "_ext" before its suffix is never taken as a composite definition |
| DataSourceFiles.PlainDefinitionAccepted | src/ansys/dpf/composites/data_sources.py:206-209 | an existing "ACPCompositeDefinitions.h5" is taken as a composite definition |
| DataSourceFiles.MappingPath | src/ansys/dpf/composites/data_sources.py:183-187 | a mapping file is only answered when it exists, and it lies next to the definition |
| DataSourceFiles.MappingPathMatchesDefinition | src/ansys/dpf/composites/data_sources.py:183-187 | the mapping file has the definition's stem and the suffix ".mapping" |
| DataSourceFiles.Listing | src/ansys/dpf/composites/data_sources.py:220-229 | listing a folder fails with OSError exactly when it is not an existing directory |
| DataSourceFiles.FilesWith | src/ansys/dpf/composites/data_sources.py:220-229 | the selected entries are exactly the listed entries of the kind |
| DataSourceFiles.FilePaths | src/ansys/dpf/composites/data_sources.py:220-229 | a folder's files of a kind are exactly its entries of that kind; a missing folder fails |
| DataSourceFiles.SingleFile | src/ansys/dpf/composites/data_sources.py:232-244 | answered exactly when the folder holds one file of the kind, and that is the file; none or several raise RuntimeError |
| DataSourceFiles.OptionalFile | src/ansys/dpf/composites/data_sources.py:247-257 | None exactly when there is no file of the kind; several raise RuntimeError; otherwise the one such file |
| DataSourceFiles.SetupFolders | src/ansys/dpf/composites/data_sources.py:442-446 | exactly the folder's sub-directories whose names start with "Setup" |
| DataSourceFiles.SetupsIn | src/ansys/dpf/composites/data_sources.py:442-446 | the selected entries are exactly the listed directories named "Setup*" |
| DataSourceFiles.RstList | src/ansys/dpf/composites/data_sources.py:91-95 | a single path becomes a one-element list; a list is kept |
| DataSourceFiles.RstListStable | src/ansys/dpf/composites/data_sources.py:85-95 | normalising a normalised value changes nothing, and only an empty list gives an empty result |
| DataSourceFiles.AppendDistinct | src/ansys/dpf/composites/data_sources.py:287-297 | storing under a new key keeps the keys distinct and adds exactly that key |
| DataSourceFiles.TaggedKey | src/ansys/dpf/composites/data_sources.py:286-293 | a key made from a folder name ends with its "_shell" or "_solid" tag |
| DataSourceFiles.AddDefinitionWellFormed | src/ansys/dpf/composites/data_sources.py:284-297 | recording a definition keeps the dict well formed and extends it; it raises exactly when the key is taken, and otherwise adds that one key |
| DataSourceFiles.AddFromSetupWellFormed | src/ansys/dpf/composites/data_sources.py:260-297 | one setup folder keeps the dict well formed and extends it; on success it adds the "_shell" and "_solid" keys of the definitions found |
| DataSourceFiles.AddFromSetupsWellFormed | src/ansys/dpf/composites/data_sources.py:474-475 | scanning all setup folders keeps the dict well formed and keeps what was there |
| DataSourceFiles.AddFromSetupsFails | src/ansys/dpf/composites/data_sources.py:474-475 | once a prefix of the setup folders fails, the whole scan fails the same way |
| DataSourceFiles.FolderInputs | src/ansys/dpf/composites/data_sources.py:440-463 | a successful scan found at least one rst file |
| DataSourceFiles.WorkbenchFilesFound | src/ansys/dpf/composites/data_sources.py:359-488 | on success: rst files and the MatML file from the result folder, well-formed definitions, and at least one when they must be found |
| DataSourceFiles.WorkbenchFilesRequired | src/ansys/dpf/composites/data_sources.py:453-463 | a result folder without rst files, or without exactly one MatML file, raises RuntimeError |
| DataSourceFiles.ContinuousFiberCompositesFiles.constructor | src/ansys/dpf/composites/data_sources.py:55-81 | `rst` is stored as a list; the other fields as given |
| DataSourceFiles.ContinuousFiberCompositesFiles.SetRst | src/ansys/dpf/composites/data_sources.py:85-89 | `rst` is stored as a list |
| DataSourceFiles.ContinuousFiberCompositesFiles.AddCompositeDefinitionsFromSetupFolder | src/ansys/dpf/composites/data_sources.py:260-297 | the new dict and the error are those of the setup-folder scan |
| DataSourceFiles.ContinuousFiberCompositesFiles.AddCompositeDefinitionsFromSetupFolders | src/ansys/dpf/composites/data_sources.py:474-475 | the loop's dict and error are those of the scan over all setup folders |
| DataSourceFiles.CollectCompositeFiles | src/ansys/dpf/composites/data_sources.py:440-488 | fails exactly when the folder scan fails, with its error; otherwise a fresh local files object holding what the scan found |
| DataSourceFiles.GetCompositeFilesFromWorkbenchResultFolder | src/ansys/dpf/composites/data_sources.py:359-488 | the scan with setups, rst and MatML files all from the result folder |
| DataSourceFiles.CompositeFilesFromWorkbenchHarmonicAnalysis | src/ansys/dpf/composites/data_sources.py:300-356 | the scan with setups from the modal folder, rst and MatML files from the harmonic one, and no check that definitions were found |
| DataSourceFiles.RstFilesRegistered | src/ansys/dpf/composites/data_sources.py:491-505 | every rst file is registered once, in order; several files get domains 0, 1, ... |
| DataSourceFiles.DataSourcesFromRstFiles | src/ansys/dpf/composites/data_sources.py:491-505 | the loop registers the rst files as the registration function says |
| DataSourceFiles.CompositeDataSourcesOf | src/ansys/dpf/composites/data_sources.py:508-575 | no rst files raise RuntimeError, and only then |
| DataSourceFiles.MaterialSupportFromFirstRst | src/ansys/dpf/composites/data_sources.py:522-532 | the material support is the first rst file alone |
| DataSourceFiles.PartKeyIffSeveral | src/ansys/dpf/composites/data_sources.py:540-558 | definitions are registered for their part exactly when there are several, and every definition is registered |
| DataSourceFiles.OldSourcesKeys | src/ansys/dpf/composites/data_sources.py:541-567 | the old data sources have exactly the definitions' keys |
| DataSourceFiles.OldSourcesAt | src/ansys/dpf/composites/data_sources.py:560-567 | under each key, the old data sources hold that definition and its mapping file |
| DataSourceFiles.GetCompositesDataSources | src/ansys/dpf/composites/data_sources.py:508-575 | the loop builds the data sources the function describes |
| DataSourceFiles.ShortFiberCompositesFiles.constructor | src/ansys/dpf/composites/data_sources.py:109-134 | `rst` is stored as a list; the other fields as given |
| DataSourceFiles.ShortFiberCompositesFiles.SetRst | src/ansys/dpf/composites/data_sources.py:138-142 | `rst` is stored as a list |
| DataSourceFiles.GetShortFiberCompositesDataSources | src/ansys/dpf/composites/data_sources.py:594-608 | the rst registrations, then the solver input as "dat" and the engineering data |

## Left out

- The DPF server, its operators and its fields are not modelled. Fields arrive as values (maps from entity id to data, flat arrays). An operator's answer arrives as a parameter of the method that runs it.
- SolidStackSamplingPoints.RunOutcome: the stresses, strains and failures of the stack are a parameter (`Evaluation`) rather than the output of `get_through_the_thickness_results` and `get_through_the_thickness_failure_results` (src/ansys/dpf/composites/sampling_point_solid_stack.py:421-448). Two things are lost. The errors those functions raise (a missing element, a ply-count mismatch) do not reach `run`. And `run` cannot derive that on success the strain lists hold exactly two values per ply, so its check of that count is modelled on the given lists. Both functions are modelled on their own in `SolidStackResults`.
- SolidStackSamplingPoints.SolidStackSamplingPoint.Run and SolidStackSamplingPoints.RunSucceeds: take the same `Evaluation` parameter as `RunOutcome`, with the same two losses.
- Whether a server or an operator is available is a boolean parameter. A missing one raises RuntimeError, as in the library.
- Plotting (matplotlib), `to_json` and `__repr__` strings, and NumPy's array layout are left out. Arrays are sequences.
- Floating point is modelled as `real`. NaN, rounding and `float` versus `int` in JSON values are not modelled.
- `acos` and `cos` are not available in Dafny. Cuntze's coupling between b32 and the fracture plane angle is passed in as the functions `angleOf` and `b32Of`.
- Cuntze.NewCuntzeCriterion: the range the docstring gives for the angle (45 to 90 degrees) is not checked, because the code does not check it.
- The older failure-criterion modules (`failure_criteria/max_strain.py`, `puck.py`, `cuntze.py`, `quadratic_failure_criterion.py`, `hashin.py`, `larc.py` and `face_sheet_wrinkling.py`) are not modelled separately. They have the same defaults and the same setter checks as the modelled classes. Their base, `failure_criteria/failure_criterion_base.py`, adds only `to_json_dict`, which builds the same keyed dict as the modelled `to_dict` and returns its JSON text. Its debugging `print` is not modelled.
- Puck's setters are applied in the constructor's keyword order. That order decides which AttributeError is raised first when several arguments are bad.
- CombinedCriterion.CombinedFailureCriterion: the registry stores a snapshot of each inserted criterion's state. Python stores the object itself, so a criterion changed after it was inserted also changes the combined `to_dict`. That aliasing is not modelled. The same holds for `LegacyCombinedCriterion.CombinedFailureCriterion`.
- `str.lower()` is modelled for ASCII letters only (`CombinedCriterion.CriterionKey`). Criterion names are ASCII.
- The sampling point's SHA-1 digest of the sorted-key JSON is a function parameter. Only its equality with the last digest sent matters.
- The sampling point operator's output is a JSON list given as a parameter. Its parsing from text is not modelled.
- `FailureOutput`'s integer values are not modelled, nor the `TIME_LABEL` and `FAILURE_LABEL` strings. Only the eight outputs' names are.
- `REF_SURFACE_NAME` is a parameter of `CompositeModelHelpers.FailureEnumFromName`. Its value lives in `constants.py`, which is not part of this model.
- The decorator's warning text and `stacklevel` are not modelled. Only whether the warning is given is.
- `FailureMeasure`'s string values are taken from the `measure` docstring at src/ansys/dpf/composites/result_definition.py:107, because the enum's file is not part of this model.
- ResultDefinitions.ResultDefinition.constructor: the source's type hint names the class of the older `failure_criteria.combined_failure_criterion` module (imported at src/ansys/dpf/composites/result_definition.py:8). The package exports the newer class instead (src/ansys/dpf/composites/failure_criteria/__init__.py:3), and the model holds that one. With an object of the older class, whose `to_dict` already wraps its dict under "criteria", the key would appear twice. That combination is not modelled.
- `check_has_single_scope` is modelled as "exactly one scope".
- `ResultDefinitions.ToDict` answers the dict as a JSON value. `json.dumps` is not modelled.
- The file system is a value: the set of existing files and each directory's listing in `iterdir` order. `resolve()` is the identity, so paths are taken to be absolute already. `os.listdir` appears only in error messages and is not modelled.
- `pathlib` is modelled for `name`, `suffix` and `stem` as pathlib defines them for a single final component.
- A DPF `DataSources` object is modelled as the sequence of registrations made on it.
- Server versions are given as release numbers (`"7.1"` is `[7, 1]`). Version parsing from text is not modelled.
- LayupInfo.PlyMaterial: the library iterates a set intersection of material ids, whose order Python leaves undefined. The model takes the scoping order, so when several materials match it names the first of them.
- LayupInfo.AnalysisPlies: the ply index → name map that `get_analysis_ply_index_to_name_map` reads from the server is a parameter.
- Indexer.SetupIndexById: requires non-negative ids, which the library does not check. DPF entity ids are positive, and a negative id would index the lookup table from its end. The members that build on the index carry the same requirement.
- SolutionQueries.Filter: with all three filter lists empty the data is returned unchanged. NumPy would return it with an added axis.
- The stress and failure solution wrappers beyond the layered queries, including their unit handling, are not modelled.
- SolidStackResults: the per-stack `num_analysis_plies`, the unit system and the polar properties are not part of the modelled result.
- SamplingPointHelpers.OffsetsBySpots: requires at least two spots per ply. The only division that could fail is the step `/ (spots_per_ply - 1)` at src/ansys/dpf/composites/_sampling_point_helpers.py:117, and the comment at line 115 says a ply always has 2 or 3 spots. With no plies the model raises RuntimeError, as the library does at lines 103-104.
- Snapshots of default JSON dicts that the library's tests compare against are not reproduced. The defaults are stated per criterion instead.
- Branches that no input can reach are left out, for example an `assert` the preceding check already guarantees.
- A few arithmetic and list facts have no row in the table below; they serve the modelled members. For example: Python indexing and slicing, truncating division, the dict helpers in `Common`, and the case-split round-trip lemmas of `FailureModes`.

## Findings

| source | as written | input that shows it | evidently intended | confidence | as-written member | corrected member |
|---|---|---|---|---|---|---|
| src/ansys/dpf/composites/indexer.py:49-52 | the lookup reads `data[mapping[id]]` with a mapping entry of -1 for ids the scoping lacks, so an absent id reads the last value | a scoping [1, 3] with values [10, 30] and id 2: the lookup answers 30, where the newer indexer answers None | an absent id answers None, as the newer indexer does | not executed | LegacyIndexer.LegacyLookupCounterexample | Indexer.ValueByIdAbsent |
| src/ansys/dpf/composites/layup_info/_layup_info.py:432 | the hint list names `element_layer_material_ids` instead of the requested `element_layered_material_ids` | a mesh that lacks only `element_layered_material_ids` gets the error without the lay-up hint | the hint accompanies every field that the lay-up provider adds | not executed | LayupInfo.ProviderHintCounterexample | LayupInfo.CorrectedHintForLayupFields |
| src/ansys/dpf/composites/sampling_point_solid_stack.py:245-249 | the `s23` getter reads the s13 stresses | any result whose s13 and s23 differ: `s23` answers the s13 values | `s23` reads the s23 stresses | not executed | SolidStackSamplingPoints.S23AsWrittenAnswersS13 | SolidStackSamplingPoints.SolidStackSamplingPoint.S23 |
| src/ansys/dpf/composites/sampling_point_2023r2.py:227-231 | the `s23` getter reads the s13 stresses | any result whose s13 and s23 differ: `s23` answers the s13 values | `s23` reads the s23 stresses | not executed | SamplingPoints.S23AsWrittenAnswersS13 | SamplingPoints.SamplingPoint.S23 |
| src/ansys/dpf/composites/failure_criteria/combined_failure_criterion.py:22-28 | the constructor takes a name but never stores it, so reading `name` raises AttributeError | `CombinedFailureCriterion("max_stress 3D").name` | the constructor stores the name it is given | not executed | LegacyCombinedCriterion.NameAfterConstruction | LegacyCombinedCriterion.NameAfterNamedConstruction |
| src/ansys/dpf/composites/sampling_point_solid_stack.py:139-143 | the version check asks for the key "10.0", which the version table at src/ansys/dpf/composites/server_helpers/_versions.py:36-48 does not hold, so the key check raises RuntimeError before any version is compared | any server, any element: construction always fails | construction fails exactly on a server older than 10.0 (2025 R2), as the error message says | not executed | SolidStackSamplingPoints.NewSolidStackSamplingPointAsWritten | SolidStackSamplingPoints.NewSolidStackSamplingPoint |
