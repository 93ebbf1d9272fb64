// Helpers of the composite model: the failure output a result field holds,
// read off the field's name; the merge of the failure results evaluated on
// the reference surface with the other ones; and the decorator that warns
// about the deprecated composite definition label. The name suffix that marks
// reference-surface fields is a parameter.
module CompositeModelHelpers {
  import opened Common

  /** `FailureOutput`: the outputs of the failure evaluator, by index in its container. */
  datatype FailureOutput =
    | FailureMode
    | FailureValue
    | MaxLayerIndex
    | MaxGlobalLayerInStack
    | MaxLocalLayerInElement
    | MaxSolidElementId
    | FailureModeRefSurface
    | FailureValueRefSurface

  /** The outputs evaluated on the reference surface. */
  predicate OnRefSurface(o: FailureOutput)
  {
    o.FailureModeRefSurface? || o.FailureValueRefSurface?
  }

  /** A field name that names a failure value: it starts with "IRF", "SF" or "SM". */
  predicate FailureValueName(name: string)
  {
    StartsWith(name, "IRF") || StartsWith(name, "SF") || StartsWith(name, "SM")
  }

  /** `_get_failure_enum_from_name`: the output a field holds, by name prefix; an unknown name raises RuntimeError. */
  function FailureEnumFromName(name: string, refSurfaceName: string): (r: Result<FailureOutput>)
    ensures r.Err? ==> r.error == RuntimeError
    ensures r.Ok? && OnRefSurface(r.value) ==> EndsWith(name, refSurfaceName)
  {
    if StartsWith(name, "Failure Mode") then
      if EndsWith(name, refSurfaceName) then Ok(FailureModeRefSurface) else Ok(FailureMode)
    else if FailureValueName(name) then
      if EndsWith(name, refSurfaceName) then Ok(FailureValueRefSurface) else Ok(FailureValue)
    else if StartsWith(name, "Layer Index") then Ok(MaxLayerIndex)
    else if StartsWith(name, "Global Layer in Stack") then Ok(MaxGlobalLayerInStack)
    else if StartsWith(name, "Local Layer in Element") then Ok(MaxLocalLayerInElement)
    else if StartsWith(name, "Solid Element Id") then Ok(MaxSolidElementId)
    else Err(RuntimeError)
  }

  /**
   * Failure mode and failure value fields are told apart by prefix, and the
   * reference-surface variant is chosen exactly when the name ends with the
   * reference-surface suffix.
   */
  lemma FailureFieldsClassified(name: string, refSurfaceName: string)
    ensures StartsWith(name, "Failure Mode") ==>
      FailureEnumFromName(name, refSurfaceName)
        == Ok(if EndsWith(name, refSurfaceName) then FailureModeRefSurface else FailureMode)
    ensures !StartsWith(name, "Failure Mode") && FailureValueName(name) ==>
      FailureEnumFromName(name, refSurfaceName)
        == Ok(if EndsWith(name, refSurfaceName) then FailureValueRefSurface else FailureValue)
    ensures FailureEnumFromName(name, refSurfaceName).Ok? && OnRefSurface(FailureEnumFromName(name, refSurfaceName).value)
      <==> (StartsWith(name, "Failure Mode") || FailureValueName(name)) && EndsWith(name, refSurfaceName)
  {
  }

  /** The layer and element outputs ignore the suffix; a name with none of the prefixes raises. */
  lemma OtherFieldsClassified(name: string, refSurfaceName: string)
    requires !StartsWith(name, "Failure Mode") && !FailureValueName(name)
    ensures StartsWith(name, "Layer Index") ==> FailureEnumFromName(name, refSurfaceName) == Ok(MaxLayerIndex)
    ensures FailureEnumFromName(name, refSurfaceName).Err? <==>
      !StartsWith(name, "Layer Index") && !StartsWith(name, "Global Layer in Stack")
      && !StartsWith(name, "Local Layer in Element") && !StartsWith(name, "Solid Element Id")
    ensures FailureEnumFromName(name, refSurfaceName).Ok? ==> !OnRefSurface(FailureEnumFromName(name, refSurfaceName).value)
  {
  }

  // ----- _merge_containers -----

  /** A result field: its name and values. */
  datatype Field = Field(name: string, data: seq<real>)

  /** A fields container: its labels, the time ids it has fields for, and its fields by time id. */
  datatype FieldsContainer = FieldsContainer(labels: seq<string>, timeIds: seq<int>, fields: seq<(int, Field)>)

  /** A field of the merged container with its time id and failure output labels. */
  datatype Labelled = Labelled(timeId: int, output: FailureOutput, field: Field)

  /** The label space a merged field is stored under: its time id and its failure output. */
  function Space(l: Labelled): (int, FailureOutput)
  {
    (l.timeId, l.output)
  }

  /** The label spaces a container holds fields for. */
  function Spaces(out: seq<Labelled>): set<(int, FailureOutput)>
  {
    set i | 0 <= i < |out| :: Space(out[i])
  }

  /** No label space is held twice. */
  predicate DistinctSpaces(out: seq<Labelled>)
  {
    forall i, j :: 0 <= i < j < |out| ==> Space(out[i]) != Space(out[j])
  }

  /** The field a container holds under a label space, if any. */
  function FieldIn(out: seq<Labelled>, s: (int, FailureOutput)): (r: Option<Labelled>)
    ensures r.None? <==> s !in Spaces(out)
    ensures r.Some? ==> r.value in out && Space(r.value) == s
  {
    if out == [] then None
    else if Space(out[0]) == s then Some(out[0])
    else
      var r := FieldIn(out[1..], s);
      SpacesCons(out[0], out[1..]);
      assert out == [out[0]] + out[1..];
      r
  }

  /** The label spaces of a container with one more field in front. */
  lemma SpacesCons(x: Labelled, rest: seq<Labelled>)
    ensures Spaces([x] + rest) == {Space(x)} + Spaces(rest)
  {
    var out := [x] + rest;
    assert out[0] == x && Space(out[0]) in Spaces(out);
    forall y | y in Spaces(out) ensures y in {Space(x)} + Spaces(rest) {
      var i :| 0 <= i < |out| && Space(out[i]) == y;
      if i > 0 { assert out[i] == rest[i - 1]; }
    }
    forall y | y in Spaces(rest) ensures y in Spaces(out) {
      var i :| 0 <= i < |rest| && Space(rest[i]) == y;
      assert out[i + 1] == rest[i];
    }
  }

  /**
   * `add_field(label_space, field)` on the output container: a field already
   * held under the same label space is replaced in its place, a new label
   * space is appended.
   */
  function AddField(out: seq<Labelled>, l: Labelled): (r: seq<Labelled>)
    ensures Spaces(r) == Spaces(out) + {Space(l)}
    ensures Space(l) !in Spaces(out) ==> r == out + [l]
  {
    if out == [] then
      SpacesCons(l, []);
      assert [l] + [] == [l];
      [l]
    else
      SpacesCons(out[0], out[1..]);
      assert out == [out[0]] + out[1..];
      if Space(out[0]) == Space(l) then
        SpacesCons(l, out[1..]);
        [l] + out[1..]
      else
        var r := AddField(out[1..], l);
        SpacesCons(out[0], r);
        [out[0]] + r
  }

  /** After `add_field` the label space holds the new field and every other label space what it held before. */
  lemma {:induction false} AddFieldGet(out: seq<Labelled>, l: Labelled, s: (int, FailureOutput))
    ensures FieldIn(AddField(out, l), s) == (if s == Space(l) then Some(l) else FieldIn(out, s))
  {
    if out != [] && Space(out[0]) != Space(l) {
      AddFieldGet(out[1..], l, s);
    }
  }

  /** `add_field` never stores two fields under one label space. */
  lemma {:induction false} AddFieldDistinct(out: seq<Labelled>, l: Labelled)
    requires DistinctSpaces(out)
    ensures DistinctSpaces(AddField(out, l))
  {
    if out != [] {
      var rest := out[1..];
      assert DistinctSpaces(rest) by {
        forall i, j | 0 <= i < j < |rest| ensures Space(rest[i]) != Space(rest[j]) {
          assert rest[i] == out[i + 1] && rest[j] == out[j + 1];
        }
      }
      SpacesCons(out[0], rest);
      assert out == [out[0]] + rest;
      forall x | x in Spaces(rest) ensures x != Space(out[0]) {
        var i :| 0 <= i < |rest| && Space(rest[i]) == x;
        assert rest[i] == out[i + 1];
      }
      if Space(out[0]) != Space(l) {
        AddFieldDistinct(rest, l);
        var r := AddField(rest, l);
        forall i, j | 0 <= i < j < |r| + 1 ensures Space(([out[0]] + r)[i]) != Space(([out[0]] + r)[j]) {
          if i == 0 {
            assert ([out[0]] + r)[j] == r[j - 1];
            assert Space(r[j - 1]) in Spaces(r);
          } else {
            assert ([out[0]] + r)[i] == r[i - 1] && ([out[0]] + r)[j] == r[j - 1];
          }
        }
      } else {
        var r := [l] + rest;
        forall i, j | 0 <= i < j < |r| ensures Space(r[i]) != Space(r[j]) {
          if i == 0 {
            assert r[j] == rest[j - 1];
            assert Space(rest[j - 1]) in Spaces(rest);
          } else {
            assert r[i] == out[i] && r[j] == out[j];
          }
        }
      }
    }
  }

  /** The output container after adding the given fields one by one. */
  function AddAll(out: seq<Labelled>, adds: seq<Labelled>): seq<Labelled>
  {
    if adds == [] then out else AddField(AddAll(out, adds[..|adds| - 1]), adds[|adds| - 1])
  }

  /** The container after the given additions, or the error that stopped them. */
  function Extended(out: seq<Labelled>, adds: Result<seq<Labelled>>): Result<seq<Labelled>>
  {
    if adds.Ok? then Ok(AddAll(out, adds.value)) else Err(adds.error)
  }

  /** Adding `a` and then `b` is adding `a + b`. */
  lemma {:induction false} AddAllConcat(out: seq<Labelled>, a: seq<Labelled>, b: seq<Labelled>)
    ensures AddAll(out, a + b) == AddAll(AddAll(out, a), b)
    decreases |b|
  {
    if b == [] {
      assert a + b == a;
    } else {
      var n := |b| - 1;
      assert (a + b)[..|a + b| - 1] == a + b[..n];
      AddAllConcat(out, a, b[..n]);
    }
  }

  /** Adding one time id's two runs of fields extends the additions by both. */
  lemma AddAllTwice(adds: seq<Labelled>, a: seq<Labelled>, b: seq<Labelled>)
    ensures AddAll([], adds + a + b) == AddAll(AddAll(AddAll([], adds), a), b)
  {
    AddAllConcat([], adds, a);
    AddAllConcat([], adds + a, b);
  }

  /** The last of the added fields with a given label space, if any. */
  function LastAdded(adds: seq<Labelled>, s: (int, FailureOutput)): Option<Labelled>
  {
    if adds == [] then None
    else if Space(adds[|adds| - 1]) == s then Some(adds[|adds| - 1])
    else LastAdded(adds[..|adds| - 1], s)
  }

  /**
   * Later fields win: under every label space the container built from
   * nothing holds the last field added with that label space, and each label
   * space is held once.
   */
  lemma {:induction false} AddAllLastWins(adds: seq<Labelled>, s: (int, FailureOutput))
    ensures FieldIn(AddAll([], adds), s) == LastAdded(adds, s)
    ensures DistinctSpaces(AddAll([], adds))
  {
    if adds != [] {
      var n := |adds| - 1;
      AddAllLastWins(adds[..n], s);
      AddFieldGet(AddAll([], adds[..n]), adds[n], s);
      AddFieldDistinct(AddAll([], adds[..n]), adds[n]);
    }
  }

  /** Fields whose label spaces are all different are all kept, in the order added. */
  lemma {:induction false} AddAllDistinct(adds: seq<Labelled>)
    requires DistinctSpaces(adds)
    ensures AddAll([], adds) == adds
  {
    if adds != [] {
      var n := |adds| - 1;
      assert DistinctSpaces(adds[..n]) by {
        forall i, j | 0 <= i < j < n ensures Space(adds[..n][i]) != Space(adds[..n][j]) {
          assert adds[..n][i] == adds[i] && adds[..n][j] == adds[j];
        }
      }
      AddAllDistinct(adds[..n]);
      forall x | x in Spaces(adds[..n]) ensures x != Space(adds[n]) {
        var i :| 0 <= i < n && Space(adds[..n][i]) == x;
        assert adds[..n][i] == adds[i];
      }
      assert adds[..n] + [adds[n]] == adds;
    }
  }

  /** `get_fields({time: t})`: the container's fields at time `t`, in order. */
  function FieldsAt(fields: seq<(int, Field)>, t: int): (r: seq<Field>)
    ensures forall i :: 0 <= i < |r| ==> exists j :: 0 <= j < |fields| && fields[j] == (t, r[i])
  {
    if fields == [] then []
    else
      var below := FieldsAt(fields[..|fields| - 1], t);
      var last := fields[|fields| - 1];
      if last.0 == t then
        assert forall i :: 0 <= i < |below| ==> exists j :: 0 <= j < |fields| && fields[j] == (t, below[i]) by {
          forall i | 0 <= i < |below| ensures exists j :: 0 <= j < |fields| && fields[j] == (t, below[i]) {
            var j :| 0 <= j < |fields| - 1 && fields[..|fields| - 1][j] == (t, below[i]);
            assert fields[j] == (t, below[i]);
          }
        }
        below + [last.1]
      else
        assert forall i :: 0 <= i < |below| ==> exists j :: 0 <= j < |fields| && fields[j] == (t, below[i]) by {
          forall i | 0 <= i < |below| ensures exists j :: 0 <= j < |fields| && fields[j] == (t, below[i]) {
            var j :| 0 <= j < |fields| - 1 && fields[..|fields| - 1][j] == (t, below[i]);
            assert fields[j] == (t, below[i]);
          }
        }
        below
  }

  /** `add_to_output_container` for one time id: each field labelled with its output, in order; the first unknown name raises. */
  function LabelAll(t: int, fields: seq<Field>, refSurfaceName: string): (r: Result<seq<Labelled>>)
    ensures r.Ok? ==> |r.value| == |fields|
    ensures r.Ok? ==> forall i :: 0 <= i < |fields| ==>
      FailureEnumFromName(fields[i].name, refSurfaceName).Ok?
      && r.value[i] == Labelled(t, FailureEnumFromName(fields[i].name, refSurfaceName).value, fields[i])
    ensures r.Err? <==> exists i :: 0 <= i < |fields| && FailureEnumFromName(fields[i].name, refSurfaceName).Err?
    ensures r.Err? ==> r.error == RuntimeError
  {
    if fields == [] then Ok([])
    else
      var n := |fields| - 1;
      match LabelAll(t, fields[..n], refSurfaceName)
      case Err(e) =>
        assert exists i :: 0 <= i < |fields| && FailureEnumFromName(fields[i].name, refSurfaceName).Err? by {
          var i :| 0 <= i < n && FailureEnumFromName(fields[..n][i].name, refSurfaceName).Err?;
          assert fields[i] == fields[..n][i];
        }
        Err(e)
      case Ok(below) =>
        match FailureEnumFromName(fields[n].name, refSurfaceName)
        case Err(e) => Err(e)
        case Ok(o) =>
          assert forall i :: 0 <= i < n ==> fields[i] == fields[..n][i];
          Ok(below + [Labelled(t, o, fields[n])])
  }

  /**
   * The merged fields for the given time ids: for each time id, the
   * reference-surface container's fields, then the other container's.
   */
  function Merged(times: seq<int>, nonRef: FieldsContainer, ref: FieldsContainer, refSurfaceName: string): Result<seq<Labelled>>
  {
    if times == [] then Ok([])
    else
      var t := times[|times| - 1];
      match Merged(times[..|times| - 1], nonRef, ref, refSurfaceName)
      case Err(e) => Err(e)
      case Ok(below) =>
        match LabelAll(t, FieldsAt(ref.fields, t), refSurfaceName)
        case Err(e) => Err(e)
        case Ok(fromRef) =>
          match LabelAll(t, FieldsAt(nonRef.fields, t), refSurfaceName)
          case Err(e) => Err(e)
          case Ok(fromNonRef) => Ok(below + fromRef + fromNonRef)
  }

  /**
   * Every merged field comes from one of the two containers at one of the
   * time ids, and is labelled with that time and the output its name names.
   */
  lemma {:induction false} MergedFieldsLabelled(times: seq<int>, nonRef: FieldsContainer, ref: FieldsContainer,
                                                refSurfaceName: string, k: int)
    requires Merged(times, nonRef, ref, refSurfaceName).Ok?
    requires 0 <= k < |Merged(times, nonRef, ref, refSurfaceName).value|
    ensures var e := Merged(times, nonRef, ref, refSurfaceName).value[k];
      (exists i :: 0 <= i < |times| && times[i] == e.timeId)
      && ((e.timeId, e.field) in ref.fields || (e.timeId, e.field) in nonRef.fields)
      && FailureEnumFromName(e.field.name, refSurfaceName) == Ok(e.output)
  {
    var n := |times| - 1;
    var t := times[n];
    var below := Merged(times[..n], nonRef, ref, refSurfaceName).value;
    var fromRef := LabelAll(t, FieldsAt(ref.fields, t), refSurfaceName).value;
    var e := Merged(times, nonRef, ref, refSurfaceName).value[k];
    if k < |below| {
      MergedFieldsLabelled(times[..n], nonRef, ref, refSurfaceName, k);
      assert e == below[k];
      var i :| 0 <= i < n && times[..n][i] == e.timeId;
      assert times[i] == e.timeId;
    } else if k < |below| + |fromRef| {
      var i := k - |below|;
      assert e == fromRef[i];
      var j :| 0 <= j < |ref.fields| && ref.fields[j] == (t, FieldsAt(ref.fields, t)[i]);
    } else {
      var i := k - |below| - |fromRef|;
      var fromNonRef := LabelAll(t, FieldsAt(nonRef.fields, t), refSurfaceName).value;
      assert e == fromNonRef[i];
      var j :| 0 <= j < |nonRef.fields| && nonRef.fields[j] == (t, FieldsAt(nonRef.fields, t)[i]);
    }
  }

  /** The merge adds every field of both containers at each time id, one `add_field` call each. */
  lemma {:induction false} MergedLength(times: seq<int>, nonRef: FieldsContainer, ref: FieldsContainer, refSurfaceName: string)
    requires Merged(times, nonRef, ref, refSurfaceName).Ok?
    ensures |Merged(times, nonRef, ref, refSurfaceName).value| == FieldCount(times, nonRef, ref)
  {
    if times != [] {
      MergedLength(times[..|times| - 1], nonRef, ref, refSurfaceName);
    }
  }

  /** The number of fields of both containers at the given time ids. */
  function FieldCount(times: seq<int>, nonRef: FieldsContainer, ref: FieldsContainer): nat
  {
    if times == [] then 0
    else
      var t := times[|times| - 1];
      FieldCount(times[..|times| - 1], nonRef, ref) + |FieldsAt(ref.fields, t)| + |FieldsAt(nonRef.fields, t)|
  }

  /**
   * `_merge_containers`: the two containers must have the same labels and the
   * same time ids, each in any order (AssertionError otherwise); then, per
   * time id of the reference-surface container, its fields and then the
   * other container's are added to the output under their time id and
   * failure output, a later field replacing an earlier one of the same label
   * space.
   */
  method MergeContainers(nonRef: FieldsContainer, ref: FieldsContainer, refSurfaceName: string)
    returns (r: Result<seq<Labelled>>)
    ensures multiset(nonRef.labels) != multiset(ref.labels) ==> r == Err(AssertionError)
    ensures multiset(nonRef.labels) == multiset(ref.labels) && multiset(ref.timeIds) != multiset(nonRef.timeIds) ==>
      r == Err(AssertionError)
    ensures multiset(nonRef.labels) == multiset(ref.labels) && multiset(ref.timeIds) == multiset(nonRef.timeIds) ==>
      r == Extended([], Merged(ref.timeIds, nonRef, ref, refSurfaceName))
  {
    if multiset(nonRef.labels) != multiset(ref.labels) {
      return Err(AssertionError);
    }
    if multiset(ref.timeIds) != multiset(nonRef.timeIds) {
      return Err(AssertionError);
    }
    var out: seq<Labelled> := [];
    ghost var adds: seq<Labelled> := [];
    var i := 0;
    while i < |ref.timeIds|
      invariant 0 <= i <= |ref.timeIds|
      invariant Merged(ref.timeIds[..i], nonRef, ref, refSurfaceName) == Ok(adds)
      invariant out == AddAll([], adds)
    {
      var t := ref.timeIds[i];
      assert ref.timeIds[..i + 1][..i] == ref.timeIds[..i];
      var withRef := AddToOutput(t, ref, refSurfaceName, out);
      if withRef.Err? {
        MergedFails(ref.timeIds, nonRef, ref, refSurfaceName, i + 1);
        return Err(withRef.error);
      }
      var withNonRef := AddToOutput(t, nonRef, refSurfaceName, withRef.value);
      if withNonRef.Err? {
        MergedFails(ref.timeIds, nonRef, ref, refSurfaceName, i + 1);
        return Err(withNonRef.error);
      }
      ghost var fromRef := LabelAll(t, FieldsAt(ref.fields, t), refSurfaceName).value;
      ghost var fromNonRef := LabelAll(t, FieldsAt(nonRef.fields, t), refSurfaceName).value;
      AddAllTwice(adds, fromRef, fromNonRef);
      out := withNonRef.value;
      adds := adds + fromRef + fromNonRef;
      i := i + 1;
    }
    assert ref.timeIds[..i] == ref.timeIds;
    return Ok(out);
  }

  /**
   * `add_to_output_container(t, source)`: the source's fields at `t`, each
   * labelled, added to the output container in order.
   */
  method AddToOutput(t: int, source: FieldsContainer, refSurfaceName: string, out: seq<Labelled>)
    returns (r: Result<seq<Labelled>>)
    ensures r == Extended(out, LabelAll(t, FieldsAt(source.fields, t), refSurfaceName))
  {
    var fields := FieldsAt(source.fields, t);
    var cur := out;
    ghost var done: seq<Labelled> := [];
    var j := 0;
    while j < |fields|
      invariant 0 <= j <= |fields|
      invariant LabelAll(t, fields[..j], refSurfaceName) == Ok(done)
      invariant cur == AddAll(out, done)
    {
      assert fields[..j + 1][..j] == fields[..j];
      var o := FailureEnumFromName(fields[j].name, refSurfaceName);
      if o.Err? {
        LabelAllFails(t, fields, refSurfaceName, j + 1);
        return Err(o.error);
      }
      var l := Labelled(t, o.value, fields[j]);
      assert (done + [l])[..|done|] == done;
      cur := AddField(cur, l);
      done := done + [l];
      j := j + 1;
    }
    assert fields[..j] == fields;
    return Ok(cur);
  }

  /** Once the first `n` fields fail to label, all of them do, with the same error. */
  lemma {:induction false} LabelAllFails(t: int, fields: seq<Field>, refSurfaceName: string, n: int)
    requires 0 <= n <= |fields| && LabelAll(t, fields[..n], refSurfaceName).Err?
    ensures LabelAll(t, fields, refSurfaceName) == LabelAll(t, fields[..n], refSurfaceName)
    decreases |fields| - n
  {
    if n < |fields| {
      assert fields[..n + 1][..n] == fields[..n];
      LabelAllFails(t, fields, refSurfaceName, n + 1);
    } else {
      assert fields[..n] == fields;
    }
  }

  /** Once the first `n` time ids fail to merge, all of them do, with the same error. */
  lemma {:induction false} MergedFails(times: seq<int>, nonRef: FieldsContainer, ref: FieldsContainer,
                                       refSurfaceName: string, n: int)
    requires 0 <= n <= |times| && Merged(times[..n], nonRef, ref, refSurfaceName).Err?
    ensures Merged(times, nonRef, ref, refSurfaceName) == Merged(times[..n], nonRef, ref, refSurfaceName)
    decreases |times| - n
  {
    if n < |times| {
      assert times[..n + 1][..n] == times[..n];
      MergedFails(times, nonRef, ref, refSurfaceName, n + 1);
    } else {
      assert times[..n] == times;
    }
  }

  // ----- _deprecated_composite_definition_label -----

  /** The keyword whose use is deprecated. */
  const DeprecatedKeyword: string := "composite_definition_label"

  /** Python truthiness of a JSON-like argument. */
  predicate Truthy(v: Json)
  {
    match v
    case JNull => false
    case JBool(b) => b
    case JNum(n) => n != 0.0
    case JStr(s) => s != ""
    case JArr(items) => items != []
    case JObj(entries) => entries != []
  }

  /**
   * The decorated function: the call is forwarded with its arguments
   * unchanged and its result returned; a DeprecationWarning is emitted
   * exactly when the deprecated keyword is passed with a truthy value.
   */
  function DeprecatedLabelCall<R>(f: (seq<Json>, seq<(string, Json)>) -> R, args: seq<Json>,
                                  kwargs: seq<(string, Json)>): (r: (R, bool))
    ensures r.0 == f(args, kwargs)
    ensures r.1 <==> DeprecatedKeyword in KeySet(kwargs) && Truthy(Lookup(kwargs, DeprecatedKeyword).value)
    ensures DeprecatedKeyword !in KeySet(kwargs) ==> !r.1
  {
    var warned := match Lookup(kwargs, DeprecatedKeyword)
      case Some(v) => Truthy(v)
      case None => false;
    (f(args, kwargs), warned)
  }
}
