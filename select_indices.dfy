// Elementary-index selection: which rows of an element's flat result array
// belong to the requested layers, spots and corner nodes.
module SelectIndices {
  import opened Common
  import opened Layout

  /** The order of the spots inside a layer of the result file. */
  const RstSpotOrder: seq<Spot> := [Bottom, Top, Middle]

  /** Position of a spot inside a layer of the result file. */
  function RstSpotIndex(spot: Spot): (r: nat)
    ensures r < |RstSpotOrder| && RstSpotOrder[r] == spot
  {
    [-1, 0, 2, 1][SpotValue(spot)]
  }

  lemma RstSpotIndexInverse(i: nat)
    requires i < |RstSpotOrder|
    ensures RstSpotIndex(RstSpotOrder[i]) == i
  {
  }

  function RstSpotIndices(spots: seq<Spot>): (r: seq<int>)
    ensures |r| == |spots|
    ensures forall j :: 0 <= j < |spots| ==> r[j] == RstSpotIndex(spots[j])
  {
    seq(|spots|, j requires 0 <= j < |spots| => RstSpotIndex(spots[j]))
  }

  /** The rows of one spot plane: `spotStart + node` for every selected node, in order. */
  function NodeRow(spotStart: int, nodes: seq<int>): (r: seq<int>)
    ensures |r| == |nodes|
    ensures forall k :: 0 <= k < |nodes| ==> r[k] == spotStart + nodes[k]
  {
    seq(|nodes|, k requires 0 <= k < |nodes| => spotStart + nodes[k])
  }

  /** First row of a layer: layers are `n_corner_nodes * n_spots` rows apart. */
  function LayerStart(layer: int, nCorner: int, nSpots: int): int
  {
    layer * nCorner * nSpots
  }

  /** First row of a spot plane inside a layer: spot planes are `n_corner_nodes` rows apart. */
  function SpotStart(layerStart: int, spot: int, nCorner: int): int
  {
    layerStart + spot * nCorner
  }

  /** The rows of one layer: one spot plane after the other, in the order of `spots`. */
  function LayerRows(layerStart: int, spots: seq<int>, nodes: seq<int>, nCorner: int): seq<int>
    decreases |spots|
  {
    if spots == [] then []
    else
      LayerRows(layerStart, spots[..|spots| - 1], nodes, nCorner)
      + NodeRow(SpotStart(layerStart, spots[|spots| - 1], nCorner), nodes)
  }

  /** The rows of all selected layers, one layer after the other, in the order of `layers`. */
  function AllRows(layers: seq<int>, spots: seq<int>, nodes: seq<int>, nCorner: int, nSpots: int): seq<int>
    decreases |layers|
  {
    if layers == [] then []
    else
      AllRows(layers[..|layers| - 1], spots, nodes, nCorner, nSpots)
      + LayerRows(LayerStart(layers[|layers| - 1], nCorner, nSpots), spots, nodes, nCorner)
  }

  lemma MulSucc(a: int, b: int)
    ensures (a + 1) * b == a * b + b
  {
  }

  lemma {:induction false} LayerRowsLength(layerStart: int, spots: seq<int>, nodes: seq<int>, nCorner: int)
    ensures |LayerRows(layerStart, spots, nodes, nCorner)| == |spots| * |nodes|
    decreases |spots|
  {
    if spots != [] {
      var n := |spots|;
      LayerRowsLength(layerStart, spots[..n - 1], nodes, nCorner);
      MulSucc(n - 1, |nodes|);
    }
  }

  lemma {:induction false} AllRowsLength(layers: seq<int>, spots: seq<int>, nodes: seq<int>, nCorner: int, nSpots: int)
    ensures |AllRows(layers, spots, nodes, nCorner, nSpots)| == |layers| * (|spots| * |nodes|)
    decreases |layers|
  {
    if layers != [] {
      var n := |layers|;
      AllRowsLength(layers[..n - 1], spots, nodes, nCorner, nSpots);
      LayerRowsLength(LayerStart(layers[n - 1], nCorner, nSpots), spots, nodes, nCorner);
      MulSucc(n - 1, |spots| * |nodes|);
    }
  }

  /** Row `j * |nodes| + k` of a layer is `layerStart + spots[j] * nCorner + nodes[k]`. */
  lemma {:induction false} LayerRowsAt(layerStart: int, spots: seq<int>, nodes: seq<int>, nCorner: int, j: int, k: int)
    requires 0 <= j < |spots| && 0 <= k < |nodes|
    ensures j * |nodes| + k < |LayerRows(layerStart, spots, nodes, nCorner)|
    ensures LayerRows(layerStart, spots, nodes, nCorner)[j * |nodes| + k]
         == layerStart + spots[j] * nCorner + nodes[k]
    decreases |spots|
  {
    var n := |spots|;
    var init := spots[..n - 1];
    LayerRowsLength(layerStart, init, nodes, nCorner);
    LayerRowsLength(layerStart, spots, nodes, nCorner);
    MulSucc(n - 1, |nodes|);
    if j < n - 1 {
      LayerRowsAt(layerStart, init, nodes, nCorner, j, k);
    }
  }

  /** Row `i * |spots| * |nodes| + off` of the selection is row `off` of layer `i`. */
  lemma {:induction false} AllRowsAt(layers: seq<int>, spots: seq<int>, nodes: seq<int>, nCorner: int, nSpots: int,
                                     i: int, off: int)
    requires 0 <= i < |layers| && 0 <= off < |spots| * |nodes|
    ensures i * (|spots| * |nodes|) + off < |AllRows(layers, spots, nodes, nCorner, nSpots)|
    ensures |LayerRows(LayerStart(layers[i], nCorner, nSpots), spots, nodes, nCorner)| == |spots| * |nodes|
    ensures AllRows(layers, spots, nodes, nCorner, nSpots)[i * (|spots| * |nodes|) + off]
         == LayerRows(LayerStart(layers[i], nCorner, nSpots), spots, nodes, nCorner)[off]
    decreases |layers|
  {
    var n := |layers|;
    var init := layers[..n - 1];
    AllRowsLength(init, spots, nodes, nCorner, nSpots);
    LayerRowsLength(LayerStart(layers[n - 1], nCorner, nSpots), spots, nodes, nCorner);
    LayerRowsLength(LayerStart(layers[i], nCorner, nSpots), spots, nodes, nCorner);
    MulSucc(n - 1, |spots| * |nodes|);
    if i < n - 1 {
      AllRowsAt(init, spots, nodes, nCorner, nSpots, i, off);
    }
  }

  /** The first failed check of the selection, in the order the checks run. */
  function CheckSelection(info: ElementInfo, layers: seq<int>, nodes: seq<int>, spots: seq<int>): Option<Error>
  {
    if !info.isLayered then Some(RuntimeError)
    else if info.nSpots == 0 then Some(RuntimeError)
    else if |layers| == 0 then Some(ValueError)
    else if Max(layers) >= info.nLayers then Some(RuntimeError)
    else if |nodes| == 0 then Some(ValueError)
    else if Max(nodes) >= info.nodesPerSpotPlane then Some(RuntimeError)
    else if |spots| == 0 then Some(ValueError)
    else if Max(spots) >= info.nSpots then Some(RuntimeError)
    else None
  }

  function LayerSelection(info: ElementInfo, layers: Option<seq<int>>): seq<int>
  {
    if layers.None? then Range(info.nLayers) else layers.value
  }

  function NodeSelection(info: ElementInfo, nodes: Option<seq<int>>): seq<int>
  {
    if nodes.None? then Range(info.nodesPerSpotPlane) else nodes.value
  }

  function SpotSelection(info: ElementInfo, spots: Option<seq<Spot>>): seq<int>
  {
    if spots.None? then Range(info.nSpots) else RstSpotIndices(spots.value)
  }

  predicate ExplicitlyEmpty<T>(c: Option<seq<T>>)
  {
    c.Some? && |c.value| == 0
  }

  /**
   * The selection `get_selected_indices` returns: an absent collection selects
   * everything, an explicitly empty one selects nothing before any check runs.
   */
  function SelectedIndices(info: ElementInfo, layers: Option<seq<int>>, nodes: Option<seq<int>>,
                           spots: Option<seq<Spot>>, disableChecks: bool): Result<seq<int>>
  {
    if ExplicitlyEmpty(layers) || ExplicitlyEmpty(nodes) || ExplicitlyEmpty(spots) then Ok([])
    else
      var l := LayerSelection(info, layers);
      var n := NodeSelection(info, nodes);
      var s := SpotSelection(info, spots);
      var failed := if disableChecks then None else CheckSelection(info, l, n, s);
      if failed.Some? then Err(failed.value)
      else Ok(AllRows(l, s, n, info.nCornerNodes, info.nSpots))
  }

  /** The layer the fill loop writes next lies inside the preallocated array. */
  lemma LayerSlotInRange(l: seq<int>, s: seq<int>, n: seq<int>, nCorner: int, nSpots: int, i: int)
    requires 0 <= i < |l|
    ensures |AllRows(l[..i], s, n, nCorner, nSpots)| + |s| * |n| <= |l| * (|s| * |n|)
  {
    AllRowsLength(l[..i], s, n, nCorner, nSpots);
    NextFits(i, |l|, |s| * |n|);
  }

  /** `get_selected_indices`: the defaults, the checks, then the fill. */
  method GetSelectedIndices(info: ElementInfo, layers: Option<seq<int>>, nodes: Option<seq<int>>,
                            spots: Option<seq<Spot>>, disableChecks: bool)
    returns (r: Result<seq<int>>)
    ensures r == SelectedIndices(info, layers, nodes, spots, disableChecks)
  {
    if ExplicitlyEmpty(layers) || ExplicitlyEmpty(nodes) || ExplicitlyEmpty(spots) {
      return Ok([]);
    }
    var l := LayerSelection(info, layers);
    var n := NodeSelection(info, nodes);
    var s := SpotSelection(info, spots);
    if !disableChecks {
      var failed := CheckSelection(info, l, n, s);
      if failed.Some? {
        return Err(failed.value);
      }
    }
    var rows := FillRows(l, s, n, info.nCornerNodes, info.nSpots);
    return Ok(rows);
  }

  lemma NodeRowSnoc(spotStart: int, n: seq<int>, k: int)
    requires 0 <= k < |n|
    ensures NodeRow(spotStart, n[..k + 1]) == NodeRow(spotStart, n[..k]) + [spotStart + n[k]]
  {
  }

  lemma LayerRowsSnoc(layerStart: int, s: seq<int>, n: seq<int>, nCorner: int, j: int)
    requires 0 <= j < |s|
    ensures LayerRows(layerStart, s[..j + 1], n, nCorner)
         == LayerRows(layerStart, s[..j], n, nCorner) + NodeRow(SpotStart(layerStart, s[j], nCorner), n)
  {
    assert s[..j + 1][..j] == s[..j];
  }

  lemma AllRowsSnoc(l: seq<int>, s: seq<int>, n: seq<int>, nCorner: int, nSpots: int, i: int)
    requires 0 <= i < |l|
    ensures AllRows(l[..i + 1], s, n, nCorner, nSpots)
         == AllRows(l[..i], s, n, nCorner, nSpots) + LayerRows(LayerStart(l[i], nCorner, nSpots), s[..|s|], n, nCorner)
  {
    assert l[..i + 1][..i] == l[..i];
    assert s[..|s|] == s;
  }

  /** The innermost loop: one spot plane, one row per selected node. */
  method FillNodes(all: array<int>, start: nat, spotStart: int, n: seq<int>)
    requires start + |n| <= all.Length
    modifies all
    ensures all[..start + |n|] == old(all[..start]) + NodeRow(spotStart, n)
  {
    for k := 0 to |n|
      invariant all[..start + k] == old(all[..start]) + NodeRow(spotStart, n[..k])
    {
      all[start + k] := spotStart + n[k];
      NodeRowSnoc(spotStart, n, k);
      assert all[..start + k + 1] == all[..start + k] + [all[start + k]];
    }
    assert n[..|n|] == n;
  }

  /** The middle loop: one layer, one spot plane after the other. */
  method FillLayer(all: array<int>, start: nat, layerStart: int, s: seq<int>, n: seq<int>, nCorner: int)
    requires start + |s| * |n| <= all.Length
    modifies all
    ensures |LayerRows(layerStart, s, n, nCorner)| == |s| * |n|
    ensures all[..start + |s| * |n|] == old(all[..start]) + LayerRows(layerStart, s, n, nCorner)
  {
    var current := start;
    for j := 0 to |s|
      invariant current == start + j * |n|
      invariant all[..current] == old(all[..start]) + LayerRows(layerStart, s[..j], n, nCorner)
    {
      NextFits(j, |s|, |n|);
      FillNodes(all, current, SpotStart(layerStart, s[j], nCorner), n);
      LayerRowsSnoc(layerStart, s, n, nCorner, j);
      current := current + |n|;
    }
    assert s[..|s|] == s;
    LayerRowsLength(layerStart, s, n, nCorner);
  }

  lemma NextFits(j: int, count: int, width: int)
    requires 0 <= j < count && 0 <= width
    ensures (j + 1) * width == j * width + width <= count * width
  {
    MulSucc(j, width);
  }

  /** The triple loop of `get_selected_indices`, filling a preallocated array. */
  method FillRows(l: seq<int>, s: seq<int>, n: seq<int>, nCorner: int, nSpots: int) returns (rows: seq<int>)
    ensures rows == AllRows(l, s, n, nCorner, nSpots)
  {
    var all := new int[|l| * (|s| * |n|)];
    var current: nat := 0;
    for i := 0 to |l|
      invariant current <= all.Length
      invariant all[..current] == AllRows(l[..i], s, n, nCorner, nSpots)
    {
      LayerSlotInRange(l, s, n, nCorner, nSpots, i);
      FillLayer(all, current, LayerStart(l[i], nCorner, nSpots), s, n, nCorner);
      AllRowsSnoc(l, s, n, nCorner, nSpots, i);
      assert s[..|s|] == s;
      current := current + |s| * |n|;
    }
    assert l[..|l|] == l;
    AllRowsLength(l, s, n, nCorner, nSpots);
    assert all[..] == all[..current];
    return all[..];
  }

  // ----- Properties of the selection -----

  /** An explicitly empty collection yields an empty selection, whatever the element and the checks. */
  lemma EmptyCollectionSelectsNothing(info: ElementInfo, layers: Option<seq<int>>, nodes: Option<seq<int>>,
                                      spots: Option<seq<Spot>>, disableChecks: bool)
    requires ExplicitlyEmpty(layers) || ExplicitlyEmpty(nodes) || ExplicitlyEmpty(spots)
    ensures SelectedIndices(info, layers, nodes, spots, disableChecks) == Ok([])
  {
  }

  /**
   * A successful selection has |layers|·|spots|·|nodes| rows, and the row at
   * position (i·|spots| + j)·|nodes| + k is
   * layer_i·n_corner_nodes·n_spots + rst(spot_j)·n_corner_nodes + node_k.
   */
  lemma SelectionShape(info: ElementInfo, layers: seq<int>, nodes: seq<int>, spots: seq<Spot>, disableChecks: bool,
                       r: seq<int>, i: int, j: int, k: int)
    requires SelectedIndices(info, Some(layers), Some(nodes), Some(spots), disableChecks) == Ok(r)
    requires 0 <= i < |layers| && 0 <= j < |spots| && 0 <= k < |nodes|
    ensures |r| == |layers| * |spots| * |nodes|
    ensures 0 <= (i * |spots| + j) * |nodes| + k < |r|
         && r[(i * |spots| + j) * |nodes| + k]
         == layers[i] * info.nCornerNodes * info.nSpots + RstSpotIndex(spots[j]) * info.nCornerNodes + nodes[k]
  {
    SelectedRows(info, layers, nodes, spots, disableChecks);
    SpotRowsLength(r, layers, spots, nodes, info.nCornerNodes, info.nSpots);
    SpotRowsAt(r, layers, spots, nodes, info.nCornerNodes, info.nSpots, i, j, k);
  }

  /** The rows of layers × spots × nodes number |layers|·|spots|·|nodes|. */
  lemma SpotRowsLength(r: seq<int>, layers: seq<int>, spots: seq<Spot>, nodes: seq<int>, nc: int, ns: int)
    requires r == AllRows(layers, RstSpotIndices(spots), nodes, nc, ns)
    ensures |r| == |layers| * |spots| * |nodes|
  {
    var s := RstSpotIndices(spots);
    AllRowsLength(layers, s, nodes, nc, ns);
    Position(0, 0, 0, |layers|, |s|, |nodes|);
  }

  /** Row (i·|spots| + j)·|nodes| + k of the rows of layers × spots × nodes. */
  lemma SpotRowsAt(r: seq<int>, layers: seq<int>, spots: seq<Spot>, nodes: seq<int>, nc: int, ns: int,
                   i: int, j: int, k: int)
    requires r == AllRows(layers, RstSpotIndices(spots), nodes, nc, ns)
    requires 0 <= i < |layers| && 0 <= j < |spots| && 0 <= k < |nodes|
    ensures 0 <= (i * |spots| + j) * |nodes| + k < |r|
         && r[(i * |spots| + j) * |nodes| + k] == layers[i] * nc * ns + RstSpotIndex(spots[j]) * nc + nodes[k]
  {
    var s := RstSpotIndices(spots);
    assert |s| == |spots| && s[j] == RstSpotIndex(spots[j]);
    Position(i, j, k, |layers|, |s|, |nodes|);
    AllRowsShape(layers, s, nodes, nc, ns, i, j, k, |s| * |nodes|, (i * |s| + j) * |nodes| + k);
  }

  /** A successful selection over explicit collections is the row list of those collections. */
  lemma SelectedRows(info: ElementInfo, layers: seq<int>, nodes: seq<int>, spots: seq<Spot>, disableChecks: bool)
    requires |layers| > 0 && |nodes| > 0 && |spots| > 0
    requires SelectedIndices(info, Some(layers), Some(nodes), Some(spots), disableChecks).Ok?
    ensures SelectedIndices(info, Some(layers), Some(nodes), Some(spots), disableChecks).value
         == AllRows(layers, RstSpotIndices(spots), nodes, info.nCornerNodes, info.nSpots)
  {
  }

  /**
   * Row `i · width + j · |nodes| + k` of the rows, where a layer is `width` rows wide,
   * is `layer_i · nc · ns + spot_j · nc + node_k`.
   */
  lemma AllRowsShape(layers: seq<int>, s: seq<int>, nodes: seq<int>, nc: int, ns: int, i: int, j: int, k: int,
                     width: int, pos: int)
    requires 0 <= i < |layers| && 0 <= j < |s| && 0 <= k < |nodes|
    requires width == |s| * |nodes| && pos == i * width + (j * |nodes| + k)
    ensures 0 <= pos < |AllRows(layers, s, nodes, nc, ns)|
    ensures AllRows(layers, s, nodes, nc, ns)[pos] == LayerStart(layers[i], nc, ns) + s[j] * nc + nodes[k]
  {
    var off := j * |nodes| + k;
    LayerRowsAt(LayerStart(layers[i], nc, ns), s, nodes, nc, j, k);
    SlotBelow(j, k, |s|, |nodes|);
    AllRowsAt(layers, s, nodes, nc, ns, i, off);
    MulNonNegative(i, width);
  }

  lemma MulNonNegative(a: int, b: int)
    requires 0 <= a && 0 <= b
    ensures 0 <= a * b
  {
  }

  lemma SlotBelow(j: int, k: int, ns: int, nn: int)
    requires 0 <= j < ns && 0 <= k < nn
    ensures 0 <= j * nn + k < ns * nn
  {
    MulSucc(j, nn);
    assert (j + 1) * nn <= ns * nn;
  }

  lemma Position(i: int, j: int, k: int, nl: int, ns: int, nn: int)
    ensures (i * ns + j) * nn + k == i * (ns * nn) + (j * nn + k)
    ensures nl * ns * nn == nl * (ns * nn)
  {
  }

  /**
   * With checks on and non-empty collections, the selection fails exactly when the
   * element is not layered, has no spots, or the LARGEST requested layer, node or
   * spot index reaches its bound. Only the maximum is compared.
   */
  lemma SelectionFailsIff(info: ElementInfo, layers: seq<int>, nodes: seq<int>, spots: seq<Spot>)
    requires |layers| > 0 && |nodes| > 0 && |spots| > 0
    ensures SelectedIndices(info, Some(layers), Some(nodes), Some(spots), false).Err?
        <==> (!info.isLayered || info.nSpots == 0
              || (exists x :: x in layers && x >= info.nLayers)
              || (exists x :: x in nodes && x >= info.nodesPerSpotPlane)
              || (exists x :: x in spots && RstSpotIndex(x) >= info.nSpots))
    ensures SelectedIndices(info, Some(layers), Some(nodes), Some(spots), false).Err?
        ==> SelectedIndices(info, Some(layers), Some(nodes), Some(spots), false).error == RuntimeError
  {
    var s := RstSpotIndices(spots);
    var ms := Max(s);
    var p :| 0 <= p < |s| && s[p] == ms;
    assert spots[p] in spots && RstSpotIndex(spots[p]) == ms;
    forall x | x in spots ensures RstSpotIndex(x) <= ms {
      var q :| 0 <= q < |spots| && spots[q] == x;
      assert s[q] in s;
    }
  }

  /** A 4-node layered shell with 3 layers and 3 spots, as in the library's tests. */
  function ShellExample(): ElementInfo
  {
    ElementInfo(1, 3, 4, 3, true, 181, [1, 2, 1], true, 4)
  }

  /**
   * Negative layer indices pass the checks, because only the maximum is compared: a
   * negative layer selects a row before the element's first one.
   */
  lemma NegativeLayerAccepted(info: ElementInfo, p: int)
    requires info.isLayered && 0 < info.nSpots && 0 < info.nodesPerSpotPlane && 0 < info.nLayers && p < 0
    ensures SelectedIndices(info, Some([p]), Some([0]), Some([Bottom]), false)
         == Ok([LayerStart(p, info.nCornerNodes, info.nSpots)])
  {
    NegativeLayerPassesChecks(info, p);
    SingleRow(p, info.nCornerNodes, info.nSpots);
  }

  lemma NegativeLayerPassesChecks(info: ElementInfo, p: int)
    requires info.isLayered && 0 < info.nSpots && 0 < info.nodesPerSpotPlane && 0 < info.nLayers && p < 0
    ensures SelectedIndices(info, Some([p]), Some([0]), Some([Bottom]), false)
         == Ok(AllRows([p], [0], [0], info.nCornerNodes, info.nSpots))
  {
    assert CheckSelection(info, [p], [0], [0]) == None by {
      assert Max([p]) == p && Max([0]) == 0;
    }
    assert RstSpotIndices([Bottom]) == [0];
  }

  lemma SingleRow(p: int, nc: int, ns: int)
    ensures AllRows([p], [0], [0], nc, ns) == [LayerStart(p, nc, ns)]
  {
    SingleLayerSingleSpot(p, 0, [0], nc, ns);
    assert NodeRow(SpotStart(LayerStart(p, nc, ns), 0, nc), [0]) == [LayerStart(p, nc, ns)];
  }

  /** The row a negative layer selects lies before the element's first row. */
  lemma NegativeLayerStart(p: int, nc: int, ns: int)
    requires p < 0 && 0 < nc && 0 < ns
    ensures LayerStart(p, nc, ns) < 0
  {
    assert 0 < nc * ns;
    assert p * (nc * ns) < 0;
  }

  lemma MaxOfRange(m: int)
    requires m > 0
    ensures Max(Range(m)) == m - 1
  {
    var r := Range(m);
    assert r[m - 1] in r;
    var q :| 0 <= q < |r| && r[q] == Max(r);
  }

  /** One layer and one spot select one spot plane. */
  lemma SingleLayerSingleSpot(layer: int, spot: int, nodes: seq<int>, nc: int, ns: int)
    ensures AllRows([layer], [spot], nodes, nc, ns) == NodeRow(SpotStart(LayerStart(layer, nc, ns), spot, nc), nodes)
  {
    var layerStart := LayerStart(layer, nc, ns);
    assert [layer][..0] == [] && [spot][..0] == [];
    assert LayerRows(layerStart, [spot], nodes, nc) == NodeRow(SpotStart(layerStart, spot, nc), nodes) by {
      assert LayerRows(layerStart, [], nodes, nc) == [];
    }
    assert AllRows([], [spot], nodes, nc, ns) == [];
  }

  lemma NodeRowRange(start: int, m: nat)
    ensures NodeRow(start, Range(m)) == seq(m, i => start + i)
  {
  }

  /** Two consecutive runs of rows make one run. */
  lemma ConsecutiveRuns(start: int, a: nat, b: nat)
    ensures seq(a, i => start + i) + seq(b, i => start + a + i) == seq(a + b, i => start + i)
  {
  }

  /** One layer at one spot selects the whole spot plane: one run of rows, one per node. */
  lemma SpotPlaneSelection(info: ElementInfo, p: int, spot: Spot)
    requires info.isLayered && 0 <= p < info.nLayers && RstSpotIndex(spot) < info.nSpots
    requires info.nodesPerSpotPlane > 0
    ensures SelectedIndices(info, Some([p]), None, Some([spot]), false)
         == Ok(seq(info.nodesPerSpotPlane,
                   i => SpotStart(LayerStart(p, info.nCornerNodes, info.nSpots), RstSpotIndex(spot), info.nCornerNodes) + i))
  {
    var nc, ns := info.nCornerNodes, info.nSpots;
    var s := RstSpotIndex(spot);
    assert CheckSelection(info, [p], Range(info.nodesPerSpotPlane), [s]) == None by {
      MaxOfRange(info.nodesPerSpotPlane);
      assert Max([p]) == p && Max([s]) == s;
    }
    assert RstSpotIndices([spot]) == [s];
    SingleLayerSingleSpot(p, s, Range(info.nodesPerSpotPlane), nc, ns);
    NodeRowRange(SpotStart(LayerStart(p, nc, ns), s, nc), info.nodesPerSpotPlane);
  }

  /** Layer 1 at the top spot of the example shell selects rows 16..19. */
  lemma ShellExampleLayerOneTop()
    ensures SelectedIndices(ShellExample(), Some([1]), None, Some([Top]), false) == Ok(seq(4, i => 16 + i))
  {
    SpotPlaneSelection(ShellExample(), 1, Top);
  }

  /** Layer 0 at the middle spot of the example shell selects rows 8..11. */
  lemma ShellExampleLayerZeroMiddle()
    ensures SelectedIndices(ShellExample(), Some([0]), None, Some([Middle]), false) == Ok(seq(4, i => 8 + i))
  {
    SpotPlaneSelection(ShellExample(), 0, Middle);
  }

  // ----- Selection by material and by analysis ply -----

  /** Positions `index` of `materialIds` whose id is in `wanted`, in ascending order. */
  function LayersWithMaterial(materialIds: seq<int>, wanted: seq<int>): (r: seq<int>)
    ensures forall a, b :: 0 <= a < b < |r| ==> r[a] < r[b]
    ensures forall x :: x in r <==> 0 <= x < |materialIds| && materialIds[x] in wanted
    decreases |materialIds|
  {
    if materialIds == [] then []
    else
      var n := |materialIds| - 1;
      var init := LayersWithMaterial(materialIds[..n], wanted);
      assert forall a :: 0 <= a < |init| ==> init[a] < n by {
        forall a | 0 <= a < |init|
          ensures init[a] < n
        {
          assert init[a] in init;
        }
      }
      if materialIds[n] in wanted then init + [n] else init
  }

  /** `get_selected_indices_by_dpf_material_ids`: the layers holding one of the materials. */
  function SelectedIndicesByMaterial(info: ElementInfo, wanted: seq<int>): Result<seq<int>>
  {
    SelectedIndices(info, Some(LayersWithMaterial(info.dpfMaterialIds, wanted)), None, None, false)
  }

  lemma {:induction false} NoMatchingLayer(materialIds: seq<int>, wanted: seq<int>)
    requires forall i :: 0 <= i < |materialIds| ==> materialIds[i] !in wanted
    ensures LayersWithMaterial(materialIds, wanted) == []
    decreases |materialIds|
  {
    if materialIds != [] {
      NoMatchingLayer(materialIds[..|materialIds| - 1], wanted);
    }
  }

  /** A material that no layer uses selects nothing. */
  lemma AbsentMaterialSelectsNothing(info: ElementInfo, wanted: seq<int>)
    requires forall i :: 0 <= i < |info.dpfMaterialIds| ==> info.dpfMaterialIds[i] !in wanted
    ensures SelectedIndicesByMaterial(info, wanted) == Ok([])
  {
    NoMatchingLayer(info.dpfMaterialIds, wanted);
  }

  /**
   * Every spot and every corner node of a layer whose spot planes hold all
   * corner nodes (a shell) is one contiguous block of rows.
   */
  lemma {:induction false} FullLayerContiguous(layerStart: int, nSpots: nat, nc: nat)
    ensures LayerRows(layerStart, Range(nSpots), Range(nc), nc) == seq(nSpots * nc, i => layerStart + i)
    decreases nSpots
  {
    if nSpots > 0 {
      var before := (nSpots - 1) * nc;
      FullLayerContiguous(layerStart, nSpots - 1, nc);
      assert Range(nSpots)[..nSpots - 1] == Range(nSpots - 1);
      NodeRowRange(SpotStart(layerStart, nSpots - 1, nc), nc);
      MulSucc(nSpots - 1, nc);
      ConsecutiveRuns(layerStart, before, nc);
    }
  }

  /**
   * In a layered element whose spot planes hold all its corner nodes, as a shell's do,
   * a whole layer is one contiguous block of rows starting at its layer offset.
   */
  lemma WholeLayerSelection(info: ElementInfo, p: int)
    requires info.isLayered && info.nSpots > 0 && info.nCornerNodes > 0
    requires info.nodesPerSpotPlane == info.nCornerNodes && 0 <= p < info.nLayers
    ensures SelectedIndices(info, Some([p]), None, None, false)
         == Ok(seq(info.nSpots * info.nCornerNodes, i => LayerStart(p, info.nCornerNodes, info.nSpots) + i))
  {
    var nc, ns := info.nCornerNodes, info.nSpots;
    assert CheckSelection(info, [p], Range(nc), Range(ns)) == None by {
      MaxOfRange(nc);
      MaxOfRange(ns);
      assert Max([p]) == p;
    }
    assert AllRows([p], Range(ns), Range(nc), nc, ns) == LayerRows(LayerStart(p, nc, ns), Range(ns), Range(nc), nc) by {
      assert [p][..0] == [];
    }
    FullLayerContiguous(LayerStart(p, nc, ns), ns, nc);
  }

  lemma ShellExampleMaterialLayers()
    ensures LayersWithMaterial([1, 2, 1], [2]) == [1]
  {
    assert [1, 2, 1][..2] == [1, 2];
    assert [1, 2][..1] == [1];
    assert [1][..0] == [];
  }

  /** Material 2 sits in layer 1 of the example shell: rows 12..23. */
  lemma ShellExampleByMaterial()
    ensures SelectedIndicesByMaterial(ShellExample(), [2]) == Ok(seq(12, i => 12 + i))
  {
    ShellExampleMaterialLayers();
    WholeLayerSelection(ShellExample(), 1);
  }

  /**
   * `get_selected_indices_by_analysis_ply`: `layerIndex` is the ply's layer in the
   * element as the analysis-ply provider reports it (None when the ply misses the element).
   */
  function SelectedIndicesByAnalysisPly(info: ElementInfo, layerIndex: Option<int>): Result<seq<int>>
  {
    if layerIndex.None? then Err(RuntimeError)
    else SelectedIndices(info, Some([layerIndex.value]), None, None, false)
  }

  /**
   * A ply missing from the element raises; a ply in layer `p` of a valid layered
   * element selects every spot and node of that layer and nothing else.
   */
  lemma AnalysisPlySelection(info: ElementInfo, layerIndex: Option<int>, j: int, k: int)
    requires layerIndex.Some? ==> info.isLayered && 0 < info.nSpots && 0 < info.nodesPerSpotPlane
                                  && layerIndex.value < info.nLayers
    requires 0 <= j < info.nSpots && 0 <= k < info.nodesPerSpotPlane
    ensures layerIndex.None? <==> SelectedIndicesByAnalysisPly(info, layerIndex) == Err(RuntimeError)
    ensures layerIndex.Some? ==>
      var r := SelectedIndicesByAnalysisPly(info, layerIndex);
      r.Ok? && |r.value| == info.nSpots * info.nodesPerSpotPlane
      && 0 <= j * info.nodesPerSpotPlane + k < |r.value|
      && r.value[j * info.nodesPerSpotPlane + k]
         == layerIndex.value * info.nCornerNodes * info.nSpots + j * info.nCornerNodes + k
  {
    if layerIndex.Some? {
      var p := layerIndex.value;
      var s, n := Range(info.nSpots), Range(info.nodesPerSpotPlane);
      assert Max([p]) == p;
      MaxOfRange(info.nSpots);
      MaxOfRange(info.nodesPerSpotPlane);
      var rows := AllRows([p], s, n, info.nCornerNodes, info.nSpots);
      assert SelectedIndicesByAnalysisPly(info, layerIndex) == Ok(rows);
      AllRowsShape([p], s, n, info.nCornerNodes, info.nSpots, 0, j, k, |s| * |n|, j * |n| + k);
      AllRowsLength([p], s, n, info.nCornerNodes, info.nSpots);
    }
  }
}
