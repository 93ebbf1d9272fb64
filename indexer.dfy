// Dense id -> position lookup over the ids of a DPF scoping, and the indexers
// that use it to read one value, or one data-pointer slice, per entity id.
module Indexer {
  import opened Common

  /** The dense lookup array: `mapping[id]` is the position of `id`, or -1. */
  datatype IndexToId = IndexToId(mapping: seq<int>, maxId: int)

  /** The position numpy's scatter `indices[ids] = arange(len(ids))` leaves at `x`: the last one wins. */
  function LastPosition(ids: seq<int>, x: int): (r: int)
    ensures -1 <= r < |ids|
    ensures r >= 0 ==> ids[r] == x
    ensures forall k :: r < k < |ids| ==> ids[k] != x
  {
    if ids == [] then -1
    else if ids[|ids| - 1] == x then |ids| - 1
    else LastPosition(ids[..|ids| - 1], x)
  }

  /** `index` is the lookup array `setup_index_by_id` builds for `ids`. */
  ghost predicate IndexFor(index: IndexToId, ids: seq<int>)
  {
    && |ids| > 0
    && |index.mapping| == Max(ids) + 1
    && index.maxId == |index.mapping| - 1
    && forall x :: 0 <= x < |index.mapping| ==> index.mapping[x] == LastPosition(ids, x)
  }

  predicate Distinct(ids: seq<int>)
  {
    forall i, j :: 0 <= i < j < |ids| ==> ids[i] != ids[j]
  }

  predicate NonNegative(ids: seq<int>)
  {
    forall k :: 0 <= k < |ids| ==> 0 <= ids[k]
  }

  /**
   * Fills an array of length max(ids) + 1 with -1 and scatters each position
   * into it; `max` of no ids raises ValueError.
   */
  method SetupIndexById(ids: seq<int>) returns (r: Result<IndexToId>)
    requires NonNegative(ids)
    ensures r.Err? <==> ids == []
    ensures r.Err? ==> r.error == ValueError
    ensures r.Ok? ==> IndexFor(r.value, ids)
  {
    if |ids| == 0 {
      return Err(ValueError);
    }
    var top := Max(ids);
    var indices := new int[top + 1](_ => -1);
    var k := 0;
    while k < |ids|
      invariant 0 <= k <= |ids|
      invariant forall x :: 0 <= x < indices.Length ==> indices[x] == LastPosition(ids[..k], x)
    {
      assert ids[k] in ids;
      indices[ids[k]] := k;
      assert ids[..k + 1][..k] == ids[..k];
      k := k + 1;
    }
    assert ids[..k] == ids;
    return Ok(IndexToId(indices[..], indices.Length - 1));
  }

  /** With distinct ids, every id is in range and maps back to its own position. */
  lemma IdMapsToItsPosition(index: IndexToId, ids: seq<int>, k: int)
    requires IndexFor(index, ids) && Distinct(ids) && NonNegative(ids)
    requires 0 <= k < |ids|
    ensures 0 <= ids[k] <= index.maxId
    ensures index.mapping[ids[k]] == k
  {
    var p := LastPosition(ids, ids[k]);
    assert k <= p;
    assert ids[k] in ids;
  }

  /** Within range, the entry is -1 exactly for the ids that are absent. */
  lemma MinusOneMarksAbsentIds(index: IndexToId, ids: seq<int>, x: int)
    requires IndexFor(index, ids)
    requires 0 <= x <= index.maxId
    ensures index.mapping[x] == -1 <==> forall k :: 0 <= k < |ids| ==> ids[k] != x
  {
    if index.mapping[x] != -1 {
      var p := LastPosition(ids, x);
      assert ids[p] == x;
    }
  }

  // ----- single-value indexers -----

  /** `PropertyFieldIndexerNoDataPointer` / `FieldIndexerNoDataPointer`: one value per entity. */
  datatype ValueIndexer<V> = ValueIndexer(indices: seq<int>, maxId: int, data: seq<V>)

  /** The indexer over `data` whose scoping ids `index` was built from. */
  function ValueIndexerOf<V>(index: IndexToId, data: seq<V>): ValueIndexer<V>
  {
    ValueIndexer(index.mapping, index.maxId, data)
  }

  /** `by_id`: None above max_id or for a -1 entry, else the value at the position. */
  function ValueById<V>(ix: ValueIndexer<V>, id: int): Result<Option<V>>
  {
    if id > ix.maxId then Ok(None)
    else match PyIndex(|ix.indices|, id)
      case None => Err(IndexError)
      case Some(p) =>
        var idx := ix.indices[p];
        if idx < 0 then Ok(None)
        else match PyIndex(|ix.data|, idx)
          case None => Err(IndexError)
          case Some(q) => Ok(Some(ix.data[q]))
  }

  /** Each id of the scoping reads the value stored at its own position. */
  lemma ValueByIdFindsValue<V>(index: IndexToId, ids: seq<int>, data: seq<V>, k: int)
    requires IndexFor(index, ids) && Distinct(ids) && NonNegative(ids)
    requires |data| == |ids| && 0 <= k < |ids|
    ensures ValueById(ValueIndexerOf(index, data), ids[k]) == Ok(Some(data[k]))
  {
    IdMapsToItsPosition(index, ids, k);
  }

  /** An id that is not in the scoping reads None, below or above max_id. */
  lemma ValueByIdAbsent<V>(index: IndexToId, ids: seq<int>, data: seq<V>, x: int)
    requires IndexFor(index, ids)
    requires 0 <= x && forall k :: 0 <= k < |ids| ==> ids[k] != x
    ensures ValueById(ValueIndexerOf(index, data), x) == Ok(None)
  {
    if x <= index.maxId {
      MinusOneMarksAbsentIds(index, ids, x);
    }
  }

  /** `PropertyFieldIndexerNoDataPointerNoBoundsCheck`: `data[indices[id]]` with no checks. */
  function ValueByIdUnchecked<V>(ix: ValueIndexer<V>, id: int): Result<V>
  {
    match PyIndex(|ix.indices|, id)
    case None => Err(IndexError)
    case Some(p) =>
      match PyIndex(|ix.data|, ix.indices[p])
      case None => Err(IndexError)
      case Some(q) => Ok(ix.data[q])
  }

  /**
   * Without checks, a present id reads its value, an absent id below max_id
   * silently reads the last value (position -1), and an id above max_id raises.
   */
  lemma UncheckedValueLookup<V>(index: IndexToId, ids: seq<int>, data: seq<V>, x: int)
    requires IndexFor(index, ids) && Distinct(ids) && NonNegative(ids)
    requires |data| == |ids| && 0 <= x
    ensures forall k :: 0 <= k < |ids| && ids[k] == x ==>
      ValueByIdUnchecked(ValueIndexerOf(index, data), x) == Ok(data[k])
    ensures x <= index.maxId && (forall k :: 0 <= k < |ids| ==> ids[k] != x) ==>
      ValueByIdUnchecked(ValueIndexerOf(index, data), x) == Ok(data[|data| - 1])
    ensures x > index.maxId ==> ValueByIdUnchecked(ValueIndexerOf(index, data), x) == Err(IndexError)
  {
    forall k | 0 <= k < |ids| && ids[k] == x
      ensures ValueByIdUnchecked(ValueIndexerOf(index, data), x) == Ok(data[k])
    {
      IdMapsToItsPosition(index, ids, k);
    }
    if x <= index.maxId {
      MinusOneMarksAbsentIds(index, ids, x);
    }
  }

  // ----- data-pointer indexers -----

  /**
   * `PropertyFieldIndexerWithDataPointer` / `FieldIndexerWithDataPointer`:
   * `dataPointer` is the field's pointer with `len(data) * n_components` appended.
   */
  datatype PointerIndexer<V> = PointerIndexer(
    indices: seq<int>, maxId: int, data: seq<V>, nComponents: int, dataPointer: seq<int>)

  /** The indexer over `data` with the field's own data pointer `fieldPointer`. */
  function PointerIndexerOf<V>(index: IndexToId, data: seq<V>, nComponents: int, fieldPointer: seq<int>): PointerIndexer<V>
  {
    PointerIndexer(index.mapping, index.maxId, data, nComponents, fieldPointer + [|data| * nComponents])
  }

  /** The rows of the entity at position `idx`: `data[dp[idx] // n : dp[idx + 1] // n]`. */
  function EntityRows<V>(ix: PointerIndexer<V>, idx: int): Result<seq<V>>
    requires ix.nComponents != 0 && 0 <= idx
  {
    if idx + 1 >= |ix.dataPointer| then Err(IndexError)
    else
      Ok(PySlice(ix.data,
                 FloorDiv(ix.dataPointer[idx], ix.nComponents),
                 FloorDiv(ix.dataPointer[idx + 1], ix.nComponents)))
  }

  /** `by_id`: None above max_id or for a -1 entry, else the entity's slice. */
  function RowsById<V>(ix: PointerIndexer<V>, id: int): Result<Option<seq<V>>>
    requires ix.nComponents != 0
  {
    if id > ix.maxId then Ok(None)
    else match PyIndex(|ix.indices|, id)
      case None => Err(IndexError)
      case Some(p) =>
        var idx := ix.indices[p];
        if idx < 0 then Ok(None)
        else match EntityRows(ix, idx)
          case Err(e) => Err(e)
          case Ok(rows) => Ok(Some(rows))
  }

  /** `PropertyFieldIndexerWithDataPointerNoBoundsCheck`: only a -1 entry is rejected. */
  function RowsByIdUnchecked<V>(ix: PointerIndexer<V>, id: int): Result<Option<seq<V>>>
    requires ix.nComponents != 0
  {
    match PyIndex(|ix.indices|, id)
    case None => Err(IndexError)
    case Some(p) =>
      var idx := ix.indices[p];
      if idx < 0 then Ok(None)
      else match EntityRows(ix, idx)
        case Err(e) => Err(e)
        case Ok(rows) => Ok(Some(rows))
  }

  /**
   * A field's data pointer: entity k starts at row `starts[k]`, counted in
   * scalar values (`starts[k] * n`); the starts never decrease and stay within the data.
   */
  predicate PointerOfRows(fieldPointer: seq<int>, starts: seq<int>, nRows: int, n: int)
  {
    && |fieldPointer| == |starts|
    && (forall k :: 0 <= k < |starts| ==> fieldPointer[k] == starts[k] * n)
    && (forall k :: 0 <= k < |starts| ==> 0 <= starts[k] <= nRows)
    && (forall k :: 0 < k < |starts| ==> starts[k - 1] <= starts[k])
  }

  lemma MulDivCancel(a: int, n: int)
    requires n > 0
    ensures (a * n) / n == a
  {
    DivUnique(a * n, n, a, 0);
  }

  /**
   * Entity k's rows run from its start to the next entity's start; the
   * appended pointer closes the last entity at the end of the data.
   */
  lemma RowsByIdOfEntity<V>(index: IndexToId, ids: seq<int>, data: seq<V>, n: int,
                            fieldPointer: seq<int>, starts: seq<int>, k: int)
    requires IndexFor(index, ids) && Distinct(ids) && NonNegative(ids)
    requires n > 0 && |starts| == |ids| && PointerOfRows(fieldPointer, starts, |data|, n)
    requires 0 <= k < |ids|
    ensures var hi := if k + 1 < |ids| then starts[k + 1] else |data|;
      && 0 <= starts[k] <= hi <= |data|
      && RowsById(PointerIndexerOf(index, data, n, fieldPointer), ids[k]) == Ok(Some(data[starts[k]..hi]))
  {
    IdMapsToItsPosition(index, ids, k);
    var ix := PointerIndexerOf(index, data, n, fieldPointer);
    var hi := if k + 1 < |ids| then starts[k + 1] else |data|;
    MulDivCancel(starts[k], n);
    assert FloorDiv(ix.dataPointer[k], n) == starts[k];
    if k + 1 < |ids| {
      MulDivCancel(starts[k + 1], n);
    } else {
      MulDivCancel(|data|, n);
    }
    assert FloorDiv(ix.dataPointer[k + 1], n) == hi;
    assert EntityRows(ix, k) == Ok(PySlice(data, starts[k], hi));
    assert PySlice(data, starts[k], hi) == data[starts[k]..hi];
  }

  /**
   * The unchecked pointer lookup agrees with the checked one up to max_id and
   * raises IndexError above it instead of returning None.
   */
  lemma UncheckedRowsLookup<V>(ix: PointerIndexer<V>, id: int)
    requires ix.nComponents != 0
    requires ix.maxId == |ix.indices| - 1 && 0 <= id
    ensures id <= ix.maxId ==> RowsByIdUnchecked(ix, id) == RowsById(ix, id)
    ensures id > ix.maxId ==> RowsByIdUnchecked(ix, id) == Err(IndexError) && RowsById(ix, id) == Ok(None)
  {
  }
}

// The older `indexer` module: the same lookup array, but its single-value
// indexers check only the upper bound.
module LegacyIndexer {
  import opened Common
  import opened Indexer

  /** `_PropertyFieldIndexerNoDataPointer.by_id` as written: only `id > max_id` is checked. */
  function LegacyValueById<V>(ix: ValueIndexer<V>, id: int): Result<Option<V>>
  {
    if id > ix.maxId then Ok(None)
    else match PyIndex(|ix.indices|, id)
      case None => Err(IndexError)
      case Some(p) =>
        match PyIndex(|ix.data|, ix.indices[p])
        case None => Err(IndexError)
        case Some(q) => Ok(Some(ix.data[q]))
  }

  /** An id missing from the scoping but below max_id reads the last value instead of None. */
  lemma LegacyAbsentIdReadsLastValue<V>(index: IndexToId, ids: seq<int>, data: seq<V>, x: int)
    requires IndexFor(index, ids)
    requires |data| > 0 && 0 <= x <= index.maxId
    requires forall k :: 0 <= k < |ids| ==> ids[k] != x
    ensures LegacyValueById(ValueIndexerOf(index, data), x) == Ok(Some(data[|data| - 1]))
    ensures ValueById(ValueIndexerOf(index, data), x) == Ok(None)
  {
    MinusOneMarksAbsentIds(index, ids, x);
  }

  /** Scoping ids [1, 3] with values [10, 30]: id 2 reads 30 where the newer indexer reads None. */
  lemma LegacyLookupCounterexample()
    ensures IndexFor(IndexToId([-1, 0, -1, 1], 3), [1, 3])
    ensures LegacyValueById(ValueIndexerOf(IndexToId([-1, 0, -1, 1], 3), [10, 30]), 2) == Ok(Some(30))
    ensures ValueById(ValueIndexerOf(IndexToId([-1, 0, -1, 1], 3), [10, 30]), 2) == Ok(None)
  {
    var ids := [1, 3];
    assert Max(ids) == 3;
    assert LastPosition(ids, 0) == -1;
    assert LastPosition(ids, 1) == 0;
    assert LastPosition(ids, 2) == -1;
    assert LastPosition(ids, 3) == 1;
  }

  /** For ids that are present the legacy lookup agrees with the newer one. */
  lemma LegacyAgreesOnPresentIds<V>(index: IndexToId, ids: seq<int>, data: seq<V>, k: int)
    requires IndexFor(index, ids) && Distinct(ids) && NonNegative(ids)
    requires |data| == |ids| && 0 <= k < |ids|
    ensures LegacyValueById(ValueIndexerOf(index, data), ids[k]) == Ok(Some(data[k]))
  {
    IdMapsToItsPosition(index, ids, k);
  }
}
