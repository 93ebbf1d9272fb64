// The element layout shared by the index selection, the element-info providers
// and the through-the-thickness post-processing.
module Layout {

  /** Through-the-thickness position of a result inside a layer (IntEnum 1, 2, 3). */
  datatype Spot = Bottom | Middle | Top

  /** The integer value of the enumeration member. */
  function SpotValue(s: Spot): int
  {
    match s
    case Bottom => 1
    case Middle => 2
    case Top => 3
  }

  /**
   * Lay-up information of one element. `nLayers` is 1 and
   * `nodesPerSpotPlane` is -1 for a non-layered element.
   */
  datatype ElementInfo = ElementInfo(
    id: int,
    nLayers: int,
    nCornerNodes: int,
    nSpots: int,
    isLayered: bool,
    elementType: int,
    dpfMaterialIds: seq<int>,
    isShell: bool,
    nodesPerSpotPlane: int)
}
