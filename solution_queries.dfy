// Layered result queries: the flat per-element array seen as a
// (layer, spot, node) grid, row filters over that grid, and the loop that
// collects the selected rows of every element into a result field.
module SolutionQueries {
  import opened Common
  import opened Layout
  import opened SelectIndices

  /** The rows of one element, each tagged with its layer, spot and node digit. */
  datatype LayeredData<T> = LayeredData(data: seq<T>, layerIndices: seq<int>, spotIndices: seq<int>, nodeIndices: seq<int>)

  /** The three index arrays are aligned, as `get_layered_data` builds them. */
  predicate Aligned<T>(d: LayeredData<T>)
  {
    |d.spotIndices| == |d.layerIndices| && |d.nodeIndices| == |d.layerIndices|
  }

  /** Row-major decomposition of a flat index over the shape (layers, spots, nodes). */
  function LayerDigit(i: int, nSpots: int, nNodes: int): int
    requires nSpots > 0 && nNodes > 0
  {
    i / (nSpots * nNodes)
  }

  function SpotDigit(i: int, nSpots: int, nNodes: int): int
    requires nSpots > 0 && nNodes > 0
  {
    (i / nNodes) % nSpots
  }

  function NodeDigit(i: int, nNodes: int): int
    requires nNodes > 0
  {
    i % nNodes
  }

  /** The inverse of the decomposition. */
  function Ravel(layer: int, spot: int, node: int, nSpots: int, nNodes: int): int
  {
    (layer * nSpots + spot) * nNodes + node
  }

  /** Number of rows of an element: n_spots · nodes per spot plane · n_layers (numpy's `arange` is empty below 1). */
  function RowCount(info: ElementInfo): nat
  {
    var c := info.nSpots * info.nodesPerSpotPlane * info.nLayers;
    if c < 0 then 0 else c
  }

  /**
   * `LayeredDataProvider.get_layered_data`: the element data with the digits of
   * every flat index; an element without information has no `n_spots` to read.
   */
  function LayeredDataOfElement<T>(info: Option<ElementInfo>, data: seq<T>): Result<LayeredData<T>>
  {
    if info.None? then Err(AttributeError)
    else
      var e := info.value;
      if e.nSpots > 0 && e.nodesPerSpotPlane > 0 && e.nLayers > 0 then
        var n := RowCount(e);
        Ok(LayeredData(data,
                       seq(n, i requires 0 <= i < n => LayerDigit(i, e.nSpots, e.nodesPerSpotPlane)),
                       seq(n, i requires 0 <= i < n => SpotDigit(i, e.nSpots, e.nodesPerSpotPlane)),
                       seq(n, i requires 0 <= i < n => NodeDigit(i, e.nodesPerSpotPlane))))
      else Ok(LayeredData(data, [], [], []))
  }

  lemma DivBound(i: int, a: int, b: int)
    requires a > 0 && b > 0 && 0 <= i < a * b
    ensures 0 <= i / b < a
  {
  }

  /** Every flat index of the grid has in-range digits that ravel back to it. */
  lemma UnravelRoundTrip(i: int, nLayers: int, nSpots: int, nNodes: int)
    requires nLayers > 0 && nSpots > 0 && nNodes > 0
    requires 0 <= i < nSpots * nNodes * nLayers
    ensures 0 <= LayerDigit(i, nSpots, nNodes) < nLayers
    ensures 0 <= SpotDigit(i, nSpots, nNodes) < nSpots
    ensures 0 <= NodeDigit(i, nNodes) < nNodes
    ensures Ravel(LayerDigit(i, nSpots, nNodes), SpotDigit(i, nSpots, nNodes), NodeDigit(i, nNodes), nSpots, nNodes) == i
  {
    var sn := nSpots * nNodes;
    assert nSpots * nNodes * nLayers == nLayers * sn;
    DivBound(i, nLayers, sn);
    var q := i / nNodes;
    assert i == q * nNodes + i % nNodes;
    assert q == (q / nSpots) * nSpots + q % nSpots;
    DivDiv(i, nNodes, nSpots);
    assert (q / nSpots) * nSpots * nNodes + (q % nSpots) * nNodes + i % nNodes == i;
  }

  /** Division is determined by any quotient and in-range remainder. */
  lemma DivDiv(i: int, a: int, b: int)
    requires i >= 0 && a > 0 && b > 0
    ensures (i / a) / b == i / (b * a)
    ensures i / (b * a) == i / (a * b)
  {
    var q, r := i / a, i % a;
    var q2, r2 := q / b, q % b;
    Regroup(q, q2, r2, a, b);
    RemainderBound(r2, r, a, b);
    DivUnique(i, b * a, q2, r2 * a + r);
  }

  lemma Regroup(q: int, q2: int, r2: int, a: int, b: int)
    requires q == q2 * b + r2
    ensures q * a == q2 * (b * a) + r2 * a
    ensures b * a == a * b
  {
  }

  lemma RemainderBound(r2: int, r: int, a: int, b: int)
    requires 0 <= r2 < b && 0 <= r < a
    ensures 0 <= r2 * a + r < b * a
  {
    MulAwayFromZero(a, b - r2);
  }

  /** Ravelling in-range digits and decomposing again gives back the same digits. */
  lemma RavelRoundTrip(layer: int, spot: int, node: int, nSpots: int, nNodes: int)
    requires 0 <= layer && 0 <= spot < nSpots && 0 <= node < nNodes
    ensures LayerDigit(Ravel(layer, spot, node, nSpots, nNodes), nSpots, nNodes) == layer
    ensures SpotDigit(Ravel(layer, spot, node, nSpots, nNodes), nSpots, nNodes) == spot
    ensures NodeDigit(Ravel(layer, spot, node, nSpots, nNodes), nNodes) == node
  {
    var i := Ravel(layer, spot, node, nSpots, nNodes);
    var q := layer * nSpots + spot;
    DivUnique(i, nNodes, q, node);
    DivUnique(q, nSpots, layer, spot);
    DivDiv(i, nNodes, nSpots);
  }

  /** The digits of row `i` of an element, as `get_layered_data` tags it. */
  lemma LayeredDigits<T>(info: ElementInfo, data: seq<T>, i: int)
    requires info.nSpots > 0 && info.nodesPerSpotPlane > 0 && info.nLayers > 0
    requires 0 <= i < RowCount(info)
    ensures var d := LayeredDataOfElement(Some(info), data);
      d.Ok? && Aligned(d.value) && |d.value.layerIndices| == RowCount(info)
      && 0 <= d.value.layerIndices[i] < info.nLayers
      && 0 <= d.value.spotIndices[i] < info.nSpots
      && 0 <= d.value.nodeIndices[i] < info.nodesPerSpotPlane
      && Ravel(d.value.layerIndices[i], d.value.spotIndices[i], d.value.nodeIndices[i],
               info.nSpots, info.nodesPerSpotPlane) == i
  {
    UnravelRoundTrip(i, info.nLayers, info.nSpots, info.nodesPerSpotPlane);
  }

  /**
   * On a shell (corner nodes = nodes per spot plane) the two layouts agree: a row
   * chosen by `get_selected_indices` for an in-range layer, spot and node carries
   * exactly those digits when the grid is decomposed.
   */
  lemma SelectionMatchesDigits(info: ElementInfo, layers: seq<int>, nodes: seq<int>, spots: seq<Spot>,
                               disableChecks: bool, r: seq<int>, i: int, j: int, k: int)
    requires SelectedIndices(info, Some(layers), Some(nodes), Some(spots), disableChecks) == Ok(r)
    requires info.nCornerNodes == info.nodesPerSpotPlane > 0 && info.nSpots > 0
    requires 0 <= i < |layers| && 0 <= j < |spots| && 0 <= k < |nodes|
    requires 0 <= layers[i] && RstSpotIndex(spots[j]) < info.nSpots && 0 <= nodes[k] < info.nodesPerSpotPlane
    ensures 0 <= (i * |spots| + j) * |nodes| + k < |r|
    ensures LayerDigit(r[(i * |spots| + j) * |nodes| + k], info.nSpots, info.nodesPerSpotPlane) == layers[i]
    ensures SpotDigit(r[(i * |spots| + j) * |nodes| + k], info.nSpots, info.nodesPerSpotPlane) == RstSpotIndex(spots[j])
    ensures NodeDigit(r[(i * |spots| + j) * |nodes| + k], info.nodesPerSpotPlane) == nodes[k]
  {
    SelectionShape(info, layers, nodes, spots, disableChecks, r, i, j, k);
    var pos := (i * |spots| + j) * |nodes| + k;
    DigitsOfRow(r[pos], layers[i], RstSpotIndex(spots[j]), nodes[k], info.nSpots, info.nCornerNodes);
  }

  /** A row number written as layer, spot and node offsets decomposes into those digits. */
  lemma DigitsOfRow(row: int, layer: int, spot: int, node: int, nSpots: int, nc: int)
    requires 0 <= layer && 0 <= spot < nSpots && 0 <= node < nc
    requires row == layer * nc * nSpots + spot * nc + node
    ensures LayerDigit(row, nSpots, nc) == layer && SpotDigit(row, nSpots, nc) == spot && NodeDigit(row, nc) == node
  {
    RowIsRavel(layer, spot, node, nSpots, nc);
    RavelRoundTrip(layer, spot, node, nSpots, nc);
  }

  lemma RowIsRavel(layer: int, spot: int, node: int, nSpots: int, nc: int)
    ensures layer * nc * nSpots + spot * nc + node == Ravel(layer, spot, node, nSpots, nc)
  {
    assert (layer * nSpots + spot) * nc == layer * nSpots * nc + spot * nc;
    assert layer * nc * nSpots == layer * nSpots * nc;
  }

  // ----- Filtering -----

  /** Which layers, nodes and spots to keep; None is the dataclass default. */
  datatype SolutionFilter = SolutionFilter(
    layers: Option<seq<int>>,
    nodes: Option<seq<int>>,
    spots: Option<seq<Spot>>,
    components: Option<seq<int>>)

  /** The spot filter compares the enumeration VALUES with the raw spot digits. */
  function SpotValues(spots: seq<Spot>): (r: seq<int>)
    ensures |r| == |spots| && forall j :: 0 <= j < |spots| ==> r[j] == SpotValue(spots[j])
  {
    seq(|spots|, j requires 0 <= j < |spots| => SpotValue(spots[j]))
  }

  /** Row `p` passes every non-empty filter list. */
  predicate Passes<T>(d: LayeredData<T>, layers: seq<int>, nodes: seq<int>, spots: seq<Spot>, p: int)
    requires Aligned(d) && 0 <= p < |d.layerIndices|
  {
    (|layers| > 0 ==> d.layerIndices[p] in layers)
    && (|nodes| > 0 ==> d.nodeIndices[p] in nodes)
    && (|spots| > 0 ==> d.spotIndices[p] in SpotValues(spots))
  }

  /** The boolean mask `np.logical_and.reduce(filters)`. */
  function Mask<T>(d: LayeredData<T>, layers: seq<int>, nodes: seq<int>, spots: seq<Spot>): (m: seq<bool>)
    requires Aligned(d)
    ensures |m| == |d.layerIndices|
    ensures forall p :: 0 <= p < |m| ==> m[p] == Passes(d, layers, nodes, spots, p)
  {
    seq(|d.layerIndices|, p requires 0 <= p < |d.layerIndices| => Passes(d, layers, nodes, spots, p))
  }

  /** Positions where the mask holds, ascending. */
  function KeptPositions(m: seq<bool>): (r: seq<int>)
    ensures forall a, b :: 0 <= a < b < |r| ==> r[a] < r[b]
    ensures forall t :: 0 <= t < |r| ==> 0 <= r[t] < |m| && m[r[t]]
    decreases |m|
  {
    if m == [] then []
    else
      var n := |m| - 1;
      var init := KeptPositions(m[..n]);
      if m[n] then init + [n] else init
  }

  /** Every position the mask keeps is among the kept positions. */
  lemma {:induction false} KeptPositionsComplete(m: seq<bool>, p: int)
    requires 0 <= p < |m| && m[p]
    ensures exists t :: 0 <= t < |KeptPositions(m)| && KeptPositions(m)[t] == p
    decreases |m|
  {
    var n := |m| - 1;
    var init := KeptPositions(m[..n]);
    if p == n {
      assert KeptPositions(m)[|init|] == p;
    } else {
      KeptPositionsComplete(m[..n], p);
      var t :| 0 <= t < |init| && init[t] == p;
      assert KeptPositions(m)[t] == init[t];
    }
  }

  /** Boolean-mask indexing `xs[mask]`: the kept elements, in order. */
  function Compress<X>(xs: seq<X>, m: seq<bool>): seq<X>
    requires |xs| == |m|
    decreases |m|
  {
    if m == [] then []
    else
      var n := |m| - 1;
      Compress(xs[..n], m[..n]) + (if m[n] then [xs[n]] else [])
  }

  /** `xs[mask]` is `xs` read at the kept positions. */
  lemma {:induction false} CompressAtKept<X>(xs: seq<X>, m: seq<bool>)
    requires |xs| == |m|
    ensures |Compress(xs, m)| == |KeptPositions(m)|
    ensures forall t :: 0 <= t < |KeptPositions(m)| ==> Compress(xs, m)[t] == xs[KeptPositions(m)[t]]
    decreases |m|
  {
    if m != [] {
      var n := |m| - 1;
      CompressAtKept(xs[..n], m[..n]);
    }
  }

  /**
   * `LayeredData.filter`. `len(None)` raises TypeError, so every filter list must
   * be given; boolean indexing raises IndexError when the data and the mask differ
   * in length.
   */
  function Filter<T>(d: LayeredData<T>, f: SolutionFilter): Result<LayeredData<T>>
    requires Aligned(d)
  {
    if f.layers.None? || f.nodes.None? || f.spots.None? then Err(TypeError)
    else
      var layers, nodes, spots := f.layers.value, f.nodes.value, f.spots.value;
      var m := Mask(d, layers, nodes, spots);
      if |layers| == 0 && |nodes| == 0 && |spots| == 0 then Ok(d)
      else if |d.data| != |m| then Err(IndexError)
      else Ok(LayeredData(Compress(d.data, m), Compress(d.layerIndices, m),
                          Compress(d.spotIndices, m), Compress(d.nodeIndices, m)))
  }

  /**
   * A filtered row set is the original rows at the kept positions of the mask,
   * in order, the same positions for the data and the three index arrays.
   */
  lemma FilterKeepsMaskedRows<T>(d: LayeredData<T>, f: SolutionFilter)
    requires Aligned(d) && f.layers.Some? && f.nodes.Some? && f.spots.Some?
    requires |d.data| == |d.layerIndices|
    ensures var r := Filter(d, f);
      var kept := KeptPositions(Mask(d, f.layers.value, f.nodes.value, f.spots.value));
      r.Ok? && Aligned(r.value) && |r.value.data| == |kept| == |r.value.layerIndices|
      && (forall t :: 0 <= t < |kept| ==>
            r.value.data[t] == d.data[kept[t]]
            && r.value.layerIndices[t] == d.layerIndices[kept[t]]
            && r.value.spotIndices[t] == d.spotIndices[kept[t]]
            && r.value.nodeIndices[t] == d.nodeIndices[kept[t]])
  {
    var m := Mask(d, f.layers.value, f.nodes.value, f.spots.value);
    if |f.layers.value| == 0 && |f.nodes.value| == 0 && |f.spots.value| == 0 {
      AllKept(m);
    } else {
      CompressAtKept(d.data, m);
      CompressAtKept(d.layerIndices, m);
      CompressAtKept(d.spotIndices, m);
      CompressAtKept(d.nodeIndices, m);
    }
  }

  /** A row is kept iff it passes every non-empty filter list. */
  lemma KeptIffPasses<T>(d: LayeredData<T>, layers: seq<int>, nodes: seq<int>, spots: seq<Spot>, p: int)
    requires Aligned(d) && 0 <= p < |d.layerIndices|
    ensures Passes(d, layers, nodes, spots, p)
        ==> exists t :: 0 <= t < |KeptPositions(Mask(d, layers, nodes, spots))|
                        && KeptPositions(Mask(d, layers, nodes, spots))[t] == p
    ensures forall t :: 0 <= t < |KeptPositions(Mask(d, layers, nodes, spots))|
                        && KeptPositions(Mask(d, layers, nodes, spots))[t] == p
                        ==> Passes(d, layers, nodes, spots, p)
  {
    var m := Mask(d, layers, nodes, spots);
    var kept := KeptPositions(m);
    forall t | 0 <= t < |kept| && kept[t] == p ensures m[p] {
      assert m[kept[t]];
    }
    assert m[p] == Passes(d, layers, nodes, spots, p);
    if m[p] {
      KeptPositionsComplete(m, p);
    }
  }

  /** A mask with no false entry keeps every position. */
  lemma {:induction false} AllKept(m: seq<bool>)
    requires forall p :: 0 <= p < |m| ==> m[p]
    ensures KeptPositions(m) == seq(|m|, p => p)
    decreases |m|
  {
    if m != [] {
      var n := |m| - 1;
      AllKept(m[..n]);
    }
  }

  /**
   * The spot filter is not translated to the result-file order: asking for
   * `Spot.BOTTOM` (value 1) keeps the rows whose spot digit is 1, which is the
   * TOP plane of a layer.
   */
  lemma SpotFilterUsesRawValues<T>(d: LayeredData<T>, p: int)
    requires Aligned(d) && 0 <= p < |d.layerIndices|
    ensures Passes(d, [], [], [Bottom], p) <==> d.spotIndices[p] == 1
    ensures RstSpotOrder[1] == Top
  {
    assert SpotValues([Bottom]) == [1];
  }

  // ----- Collecting the selected rows of every element -----

  /** How the rows of an element are picked. */
  datatype Selector =
    | FilterSelector(filter: SolutionFilter)
      /** The layer holding the ply, per element id. */
    | AnalysisPlySelector(plyLayer: map<int, int>)
    | MaterialSelector(materialIds: seq<int>)

  /**
   * The selector factories: the filter selector forwards its lists to
   * `get_selected_indices`, the analysis-ply selector turns every exception into
   * an empty selection, the material selector forwards to the by-material selection.
   */
  function ApplySelector(sel: Selector, info: ElementInfo): Result<seq<int>>
  {
    match sel
    case FilterSelector(f) => SelectedIndices(info, f.layers, f.nodes, f.spots, false)
    case AnalysisPlySelector(plyLayer) =>
      var r := SelectedIndicesByAnalysisPly(info, if info.id in plyLayer then Some(plyLayer[info.id]) else None);
      if r.Err? then Ok([]) else r
    case MaterialSelector(ids) => SelectedIndicesByMaterial(info, ids)
  }

  /** The analysis-ply selector never raises. */
  lemma AnalysisPlySelectorNeverFails(plyLayer: map<int, int>, info: ElementInfo)
    ensures ApplySelector(AnalysisPlySelector(plyLayer), info).Ok?
    ensures info.id !in plyLayer ==> ApplySelector(AnalysisPlySelector(plyLayer), info) == Ok([])
  {
  }

  /** Fancy indexing `rows[indices]`. */
  function PickRows<T>(rows: seq<T>, indices: seq<int>): (r: Result<seq<T>>)
    ensures r.Ok? <==> forall k :: 0 <= k < |indices| ==> PyIndex(|rows|, indices[k]).Some?
    ensures r.Err? ==> r.error == IndexError
    ensures r.Ok? ==> |r.value| == |indices|
    ensures r.Ok? ==> forall k :: 0 <= k < |indices| ==>
      0 <= PyIndex(|rows|, indices[k]).value < |rows| && r.value[k] == rows[PyIndex(|rows|, indices[k]).value]
    decreases |indices|
  {
    if indices == [] then Ok([])
    else
      var n := |indices| - 1;
      var init := PickRows(rows, indices[..n]);
      var at := PyIndex(|rows|, indices[n]);
      if init.Err? then Err(IndexError)
      else if at.None? then Err(IndexError)
      else Ok(init.value + [rows[at.value]])
  }

  /** One element of the field being scanned: its id, its rows and its layout, if any. */
  datatype ElementData<T> = ElementData(id: int, rows: seq<T>, info: Option<ElementInfo>)

  /** One entry appended to the result field. */
  datatype FieldEntry<T> = FieldEntry(id: int, values: seq<T>)

  /** What one element contributes to the result field, or the exception it raises. */
  function ElementContribution<T>(e: ElementData<T>, sel: Selector, accumulate: Option<seq<T> -> T>)
    : (r: Result<Option<FieldEntry<T>>>)
    ensures r.Ok? && r.value.Some? ==>
      r.value.value.id == e.id && |r.value.value.values| > 0 && (accumulate.Some? ==> |r.value.value.values| == 1)
  {
    if e.info.None? then Err(AttributeError)
    else if !e.info.value.isLayered then Ok(None)
    else
      var selected := ApplySelector(sel, e.info.value);
      if selected.Err? then Err(selected.error)
      else if |selected.value| == 0 then Ok(None)
      else
        var picked := PickRows(e.rows, selected.value);
        if picked.Err? then Err(picked.error)
        else if accumulate.Some? then Ok(Some(FieldEntry(e.id, [accumulate.value(picked.value)])))
        else Ok(Some(FieldEntry(e.id, picked.value)))
  }

  /** The module-level `get_layered_data`: the entries of the elements in scoping order. */
  function CollectedEntries<T>(elements: seq<ElementData<T>>, sel: Selector, accumulate: Option<seq<T> -> T>)
    : Result<seq<FieldEntry<T>>>
    decreases |elements|
  {
    if elements == [] then Ok([])
    else
      var n := |elements| - 1;
      var before := CollectedEntries(elements[..n], sel, accumulate);
      if before.Err? then before
      else
        var c := ElementContribution(elements[n], sel, accumulate);
        if c.Err? then Err(c.error)
        else if c.value.None? then before
        else Ok(before.value + [c.value.value])
  }

  /** Once an element raises, so does every longer scan. */
  lemma {:induction false} ErrorPersists<T>(elements: seq<ElementData<T>>, sel: Selector,
                                            accumulate: Option<seq<T> -> T>, i: int)
    requires 0 <= i <= |elements|
    requires CollectedEntries(elements[..i], sel, accumulate).Err?
    ensures CollectedEntries(elements, sel, accumulate) == CollectedEntries(elements[..i], sel, accumulate)
    decreases |elements| - i
  {
    if i < |elements| {
      var n := |elements| - 1;
      assert elements[..i + 1][..i] == elements[..i];
      ErrorPersists(elements, sel, accumulate, i + 1);
    } else {
      assert elements[..i] == elements;
    }
  }

  /** The scan loop of `get_layered_data`, appending to the result field. */
  method GetLayeredData<T>(elements: seq<ElementData<T>>, sel: Selector, accumulate: Option<seq<T> -> T>)
    returns (r: Result<seq<FieldEntry<T>>>)
    ensures r == CollectedEntries(elements, sel, accumulate)
  {
    var field: seq<FieldEntry<T>> := [];
    for i := 0 to |elements|
      invariant CollectedEntries(elements[..i], sel, accumulate) == Ok(field)
    {
      var e := elements[i];
      assert elements[..i + 1][..i] == elements[..i];
      if e.info.None? {
        ErrorPersists(elements, sel, accumulate, i + 1);
        return Err(AttributeError);
      }
      var info := e.info.value;
      if !info.isLayered {
        continue;
      }
      var selected := ApplySelector(sel, info);
      if selected.Err? {
        ErrorPersists(elements, sel, accumulate, i + 1);
        return Err(selected.error);
      }
      if |selected.value| > 0 {
        var picked := PickRows(e.rows, selected.value);
        if picked.Err? {
          ErrorPersists(elements, sel, accumulate, i + 1);
          return Err(picked.error);
        }
        var values := picked.value;
        if accumulate.Some? {
          values := [accumulate.value(values)];
        }
        field := field + [FieldEntry(e.id, values)];
      }
    }
    assert elements[..|elements|] == elements;
    return Ok(field);
  }

  /** The result field has at most one entry per element. */
  lemma {:induction false} CollectedEntriesCount<T>(elements: seq<ElementData<T>>, sel: Selector,
                                                    accumulate: Option<seq<T> -> T>)
    requires CollectedEntries(elements, sel, accumulate).Ok?
    ensures |CollectedEntries(elements, sel, accumulate).value| <= |elements|
    decreases |elements|
  {
    if elements != [] {
      CollectedEntriesCount(elements[..|elements| - 1], sel, accumulate);
    }
  }

  /** No entry of the result field is empty; with an accumulator each holds exactly one value. */
  lemma {:induction false} CollectedEntriesSizes<T>(elements: seq<ElementData<T>>, sel: Selector,
                                                    accumulate: Option<seq<T> -> T>, t: int)
    requires CollectedEntries(elements, sel, accumulate).Ok?
    requires 0 <= t < |CollectedEntries(elements, sel, accumulate).value|
    ensures var values := CollectedEntries(elements, sel, accumulate).value[t].values;
      |values| > 0 && (accumulate.Some? ==> |values| == 1)
    decreases |elements|
  {
    var n := |elements| - 1;
    var before := CollectedEntries(elements[..n], sel, accumulate).value;
    if t < |before| {
      CollectedEntriesSizes(elements[..n], sel, accumulate, t);
      assert CollectedEntries(elements, sel, accumulate).value[t] == before[t];
    }
  }

  /** Every entry of the result field belongs to a layered element of the scan. */
  lemma {:induction false} CollectedEntryFromLayered<T>(elements: seq<ElementData<T>>, sel: Selector,
                                                        accumulate: Option<seq<T> -> T>, t: int)
    requires CollectedEntries(elements, sel, accumulate).Ok?
    requires 0 <= t < |CollectedEntries(elements, sel, accumulate).value|
    ensures exists q :: 0 <= q < |elements| && elements[q].id == CollectedEntries(elements, sel, accumulate).value[t].id
                        && elements[q].info.Some? && elements[q].info.value.isLayered
    decreases |elements|
  {
    var n := |elements| - 1;
    var before := CollectedEntries(elements[..n], sel, accumulate).value;
    var out := CollectedEntries(elements, sel, accumulate).value;
    var c := ElementContribution(elements[n], sel, accumulate);
    assert c.Ok?;
    assert out == if c.value.None? then before else before + [c.value.value];
    if t < |before| {
      CollectedEntryFromLayered(elements[..n], sel, accumulate, t);
      assert out[t] == before[t];
      var q :| 0 <= q < n && elements[..n][q].id == before[t].id
               && elements[..n][q].info.Some? && elements[..n][q].info.value.isLayered;
      assert elements[q] == elements[..n][q];
    } else {
      assert out[t] == c.value.value;
      assert elements[n].id == out[t].id;
    }
  }

  /** A scan over elements none of which is layered appends nothing. */
  lemma {:induction false} NonLayeredElementsContributeNothing<T>(elements: seq<ElementData<T>>, sel: Selector,
                                                                 accumulate: Option<seq<T> -> T>)
    requires forall q :: 0 <= q < |elements| ==> elements[q].info.Some? && !elements[q].info.value.isLayered
    ensures CollectedEntries(elements, sel, accumulate) == Ok([])
    decreases |elements|
  {
    if elements != [] {
      NonLayeredElementsContributeNothing(elements[..|elements| - 1], sel, accumulate);
    }
  }
}
