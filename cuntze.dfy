// The Cuntze criterion's configuration. Two of its parameters are coupled:
// setting the out-of-plane friction coefficient b32 recomputes the fracture
// plane angle and setting the angle recomputes b32. The trigonometric
// conversions between them are parameters of the setters.
module Cuntze {
  import opened Common
  import opened FailureCriterionBase

  /** The attributes without a check. */
  datatype CuntzeSelection = CuntzeSelection(
    cfc: bool, cft: bool, cma: bool, cmb: bool, cmc: bool,
    wfCfc: real, wfCft: real, wfCma: real, wfCmb: real, wfCmc: real,
    b21: real, modeInteractionCoeff: real)

  /** The constructor's keyword arguments: the unchecked ones grouped, then the checked ones. */
  datatype CuntzeSettings = CuntzeSettings(
    selection: CuntzeSelection, dim: int, b32: real, fracturePlaneAngle: real)

  /** The three checks the constructor's keywords go through. */
  predicate Admissible(args: CuntzeSettings)
  {
    PlanarOrSolid(args.dim) && args.b32 >= 1.0 && args.fracturePlaneAngle > 45.0
  }

  /** The constructor's defaults: every mode on, 2-D, weights 1, b21 0.2, b32 1.3805, 53 degrees, coefficient 2.6. */
  function Defaults(): (args: CuntzeSettings)
    ensures Admissible(args)
  {
    CuntzeSettings(
      CuntzeSelection(true, true, true, true, true, 1.0, 1.0, 1.0, 1.0, 1.0, 0.2, 2.6),
      2, 1.3805, 53.0)
  }

  /** The public attributes other than `name` and `active`, by attribute name. */
  function Attributes(args: CuntzeSettings): (r: seq<(string, Json)>)
    ensures OwnAttributes(r)
  {
    var sel := args.selection;
    [("cfc", JBool(sel.cfc)), ("cft", JBool(sel.cft)), ("cma", JBool(sel.cma)),
     ("cmb", JBool(sel.cmb)), ("cmc", JBool(sel.cmc)), ("dim", JNum(args.dim as real)),
     ("wf_cfc", JNum(sel.wfCfc)), ("wf_cft", JNum(sel.wfCft)), ("wf_cma", JNum(sel.wfCma)),
     ("wf_cmb", JNum(sel.wfCmb)), ("wf_cmc", JNum(sel.wfCmc)), ("b21", JNum(sel.b21)),
     ("b32", JNum(args.b32)), ("fracture_plane_angle", JNum(args.fracturePlaneAngle)),
     ("mode_interaction_coeff", JNum(sel.modeInteractionCoeff))]
  }

  class CuntzeCriterion {
    const name: string
    var active: bool
    /** The attributes with plain setters. */
    var selection: CuntzeSelection
    var dim: int
    var b32: real
    var fracturePlaneAngle: real

    /** The base-class part of construction: the name and the `active` flag. */
    constructor Base(name: string, active: bool)
      ensures this.name == name && this.active == active
    {
      this.name := name;
      this.active := active;
    }

    /** The class invariant the `dim` setter keeps. */
    predicate Valid()
      reads this
    {
      PlanarOrSolid(dim)
    }

    /** `dim = value`: anything but 2 or 3 raises AttributeError and keeps the old formulation. */
    method SetDim(value: int) returns (err: Option<Error>)
      modifies this`dim
      ensures PlanarOrSolid(value) ==> err == None && dim == value
      ensures !PlanarOrSolid(value) ==> err == Some(AttributeError) && dim == old(dim)
      ensures old(Valid()) ==> Valid()
    {
      if value == 2 || value == 3 {
        dim := value;
        return None;
      }
      return Some(AttributeError);
    }

    /**
     * `b32 = value`: below 1 raises ValueError and changes nothing; otherwise
     * the fracture plane angle becomes `angleOf(value)` (arccos(1/b32 - 1)/2,
     * in degrees) and b32 the value.
     */
    method SetB32(value: real, angleOf: real -> real) returns (err: Option<Error>)
      modifies this`b32, this`fracturePlaneAngle
      ensures value < 1.0 ==> err == Some(ValueError) && b32 == old(b32) && fracturePlaneAngle == old(fracturePlaneAngle)
      ensures value >= 1.0 ==> err == None && b32 == value && fracturePlaneAngle == angleOf(value)
    {
      if value >= 1.0 {
        fracturePlaneAngle := angleOf(value);
        b32 := value;
        return None;
      }
      return Some(ValueError);
    }

    /**
     * `fracture_plane_angle = value`: 45 degrees or less raises ValueError and
     * changes nothing; otherwise b32 becomes `b32Of(value)` (1/(1 + cos 2θ))
     * and the angle the value.
     */
    method SetFracturePlaneAngle(value: real, b32Of: real -> real) returns (err: Option<Error>)
      modifies this`b32, this`fracturePlaneAngle
      ensures value <= 45.0 ==> err == Some(ValueError) && b32 == old(b32) && fracturePlaneAngle == old(fracturePlaneAngle)
      ensures value > 45.0 ==> err == None && fracturePlaneAngle == value && b32 == b32Of(value)
    {
      if value > 45.0 {
        b32 := b32Of(value);
        fracturePlaneAngle := value;
        return None;
      }
      return Some(ValueError);
    }

    /** `to_dict`: `active` and the attributes, alphabetical. */
    function ToDict(): seq<(string, Json)>
      reads this
    {
      CriterionDict(active, Attributes(CuntzeSettings(selection, dim, b32, fracturePlaneAngle)))
    }

    /** What a combined criterion keeps of this one. */
    function Snapshot(): Criterion
      reads this
    {
      Criterion(name, ToDict())
    }
  }

  /**
   * `CuntzeCriterion(**kwargs)`: the base sets the name "Cuntze" and `active`,
   * then the keywords go through their setters in signature order: `dim`,
   * then `b32`, then `fracture_plane_angle`. The angle is set last, so the
   * constructed b32 is the one derived from the angle: the `b32` keyword is
   * only checked.
   */
  method NewCuntzeCriterion(args: CuntzeSettings, angleOf: real -> real, b32Of: real -> real)
    returns (r: Result<CuntzeCriterion>)
    ensures r.Ok? <==> Admissible(args)
    ensures r.Err? ==> r.error == (if PlanarOrSolid(args.dim) then ValueError else AttributeError)
    ensures r.Ok? ==> fresh(r.value) && r.value.name == "Cuntze" && r.value.active && r.value.Valid()
    ensures r.Ok? ==> r.value.selection == args.selection && r.value.dim == args.dim
    ensures r.Ok? ==> r.value.fracturePlaneAngle == args.fracturePlaneAngle
    ensures r.Ok? ==> r.value.b32 == b32Of(args.fracturePlaneAngle)
  {
    var c := new CuntzeCriterion.Base("Cuntze", true);
    c.selection := args.selection;
    var err := c.SetDim(args.dim);
    if err.Some? { return Err(err.value); }
    err := c.SetB32(args.b32, angleOf);
    if err.Some? { return Err(err.value); }
    err := c.SetFracturePlaneAngle(args.fracturePlaneAngle, b32Of);
    if err.Some? { return Err(err.value); }
    return Ok(c);
  }
}
