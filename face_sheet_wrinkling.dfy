// The face sheet wrinkling criterion's configuration: two wrinkling
// coefficients, for homogeneous and for honeycomb cores, which the setters
// keep strictly positive, and a weight.
module FaceSheetWrinkling {
  import opened Common
  import opened FailureCriterionBase

  /** The constructor's keyword arguments, in signature order. */
  datatype WrinklingSettings = WrinklingSettings(homogeneousCoreCoeff: real, honeycombCoreCoeff: real, wf: real)

  /** Both coefficients strictly positive. */
  predicate Admissible(args: WrinklingSettings)
  {
    args.homogeneousCoreCoeff > 0.0 && args.honeycombCoreCoeff > 0.0
  }

  /** The constructor's defaults: 0.5 for homogeneous cores, 0.33 for honeycomb cores, weight 1. */
  function Defaults(): (args: WrinklingSettings)
    ensures Admissible(args)
  {
    WrinklingSettings(0.5, 0.33, 1.0)
  }

  /** The public attributes other than `name` and `active`, by attribute name. */
  function Attributes(args: WrinklingSettings): (r: seq<(string, Json)>)
    ensures OwnAttributes(r)
  {
    [("homogeneous_core_coeff", JNum(args.homogeneousCoreCoeff)),
     ("honeycomb_core_coeff", JNum(args.honeycombCoreCoeff)),
     ("wf", JNum(args.wf))]
  }

  class FaceSheetWrinklingCriterion {
    const name: string
    var active: bool
    var homogeneousCoreCoeff: real
    var honeycombCoreCoeff: real
    var wf: real

    /** The base-class part of construction: the name and the `active` flag. */
    constructor Base(name: string, active: bool)
      ensures this.name == name && this.active == active
    {
      this.name := name;
      this.active := active;
    }

    /** The class invariant the coefficient setters keep. */
    predicate Valid()
      reads this
    {
      Admissible(WrinklingSettings(homogeneousCoreCoeff, honeycombCoreCoeff, wf))
    }

    /** `homogeneous_core_coeff = value`: a value not above 0 raises ValueError and keeps the old one. */
    method SetHomogeneousCoreCoeff(value: real) returns (err: Option<Error>)
      modifies this`homogeneousCoreCoeff
      ensures value > 0.0 ==> err == None && homogeneousCoreCoeff == value
      ensures value <= 0.0 ==> err == Some(ValueError) && homogeneousCoreCoeff == old(homogeneousCoreCoeff)
      ensures old(Valid()) ==> Valid()
    {
      if value > 0.0 {
        homogeneousCoreCoeff := value;
        return None;
      }
      return Some(ValueError);
    }

    /** `honeycomb_core_coeff = value`: a value not above 0 raises ValueError and keeps the old one. */
    method SetHoneycombCoreCoeff(value: real) returns (err: Option<Error>)
      modifies this`honeycombCoreCoeff
      ensures value > 0.0 ==> err == None && honeycombCoreCoeff == value
      ensures value <= 0.0 ==> err == Some(ValueError) && honeycombCoreCoeff == old(honeycombCoreCoeff)
      ensures old(Valid()) ==> Valid()
    {
      if value > 0.0 {
        honeycombCoreCoeff := value;
        return None;
      }
      return Some(ValueError);
    }

    /** `to_dict`: `active` and the attributes, alphabetical. */
    function ToDict(): seq<(string, Json)>
      reads this
    {
      CriterionDict(active, Attributes(WrinklingSettings(homogeneousCoreCoeff, honeycombCoreCoeff, wf)))
    }

    /** What a combined criterion keeps of this one. */
    function Snapshot(): Criterion
      reads this
    {
      Criterion(name, ToDict())
    }
  }

  /**
   * `FaceSheetWrinklingCriterion(**kwargs)`: the name "Face Sheet Wrinkling",
   * `active`, then the keywords through their setters in signature order.
   */
  method NewFaceSheetWrinklingCriterion(args: WrinklingSettings) returns (r: Result<FaceSheetWrinklingCriterion>)
    ensures r.Ok? <==> Admissible(args)
    ensures r.Err? ==> r.error == ValueError
    ensures r.Ok? ==> fresh(r.value) && r.value.name == "Face Sheet Wrinkling" && r.value.active && r.value.Valid()
    ensures r.Ok? ==> r.value.homogeneousCoreCoeff == args.homogeneousCoreCoeff
    ensures r.Ok? ==> r.value.honeycombCoreCoeff == args.honeycombCoreCoeff && r.value.wf == args.wf
  {
    var c := new FaceSheetWrinklingCriterion.Base("Face Sheet Wrinkling", true);
    var err := c.SetHomogeneousCoreCoeff(args.homogeneousCoreCoeff);
    if err.Some? { return Err(err.value); }
    err := c.SetHoneycombCoreCoeff(args.honeycombCoreCoeff);
    if err.Some? { return Err(err.value); }
    c.wf := args.wf;
    return Ok(c);
  }
}
