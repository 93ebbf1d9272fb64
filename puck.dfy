// The Puck criterion's configuration: failure modes, weights, the
// interface-weakening factor and the inclination parameters. The setters
// check the formulation (1, 2 or 3) and the two degradation parameters s and
// M, which must lie in [0, 1).
module Puck {
  import opened Common
  import opened FailureCriterionBase

  /** The attributes without a check. */
  datatype PuckSelection = PuckSelection(
    pf: bool, pma: bool, pmb: bool, pmc: bool, pd: bool,
    wfPf: real, wfPma: real, wfPmb: real, wfPmc: real, wfPd: real,
    cfps: bool, interfaceWeakeningFactor: real, forceGlobalConstants: bool,
    p21Neg: real, p21Pos: real, p22Neg: real, p22Pos: real)

  /** The constructor's keyword arguments: the unchecked ones grouped, then `dim`, `s` and `M`. */
  datatype PuckSettings = PuckSettings(selection: PuckSelection, dim: int, s: real, M: real)

  /** `s` and `M` lie in [0, 1). */
  predicate InUnitInterval(v: real)
  {
    0.0 <= v < 1.0
  }

  /** Settings the three checking setters accept. */
  predicate Admissible(args: PuckSettings)
  {
    1 <= args.dim <= 3 && InUnitInterval(args.s) && InUnitInterval(args.M)
  }

  /**
   * The constructor's defaults: every mode but delamination, 2-D, weights 1,
   * s and M 0.5, interface weakening 0.8, the inclination parameters 0.275,
   * 0.325 and 0.225.
   */
  function Defaults(): (args: PuckSettings)
    ensures Admissible(args)
  {
    PuckSettings(
      PuckSelection(
        true, true, true, true, false,
        1.0, 1.0, 1.0, 1.0, 1.0,
        true, 0.8, false,
        0.275, 0.325, 0.225, 0.225),
      2, 0.5, 0.5)
  }

  /** The public attributes other than `name` and `active`, by attribute name. */
  function Attributes(args: PuckSettings): (r: seq<(string, Json)>)
    ensures OwnAttributes(r)
  {
    var sel := args.selection;
    [("pf", JBool(sel.pf)), ("pma", JBool(sel.pma)), ("pmb", JBool(sel.pmb)),
     ("pmc", JBool(sel.pmc)), ("pd", JBool(sel.pd)), ("dim", JNum(args.dim as real)),
     ("wf_pf", JNum(sel.wfPf)), ("wf_pma", JNum(sel.wfPma)), ("wf_pmb", JNum(sel.wfPmb)),
     ("wf_pmc", JNum(sel.wfPmc)), ("wf_pd", JNum(sel.wfPd)), ("cfps", JBool(sel.cfps)),
     ("s", JNum(args.s)), ("M", JNum(args.M)),
     ("interface_weakening_factor", JNum(sel.interfaceWeakeningFactor)),
     ("force_global_constants", JBool(sel.forceGlobalConstants)),
     ("p21_neg", JNum(sel.p21Neg)), ("p21_pos", JNum(sel.p21Pos)),
     ("p22_neg", JNum(sel.p22Neg)), ("p22_pos", JNum(sel.p22Pos))]
  }

  class PuckCriterion {
    const name: string
    var active: bool
    /** The attributes with plain setters. */
    var selection: PuckSelection
    var dim: int
    var s: real
    var M: real

    /** The base-class part of construction: the name and the `active` flag. */
    constructor Base(name: string, active: bool)
      ensures this.name == name && this.active == active
    {
      this.name := name;
      this.active := active;
    }

    /** The class invariant the checking setters keep. */
    predicate Valid()
      reads this
    {
      Admissible(PuckSettings(selection, dim, s, M))
    }

    /** `dim = value`: anything but 1, 2 or 3 raises AttributeError and keeps the old formulation. */
    method SetDim(value: int) returns (err: Option<Error>)
      modifies this`dim
      ensures 1 <= value <= 3 ==> err == None && dim == value
      ensures !(1 <= value <= 3) ==> err == Some(AttributeError) && dim == old(dim)
      ensures old(Valid()) ==> Valid()
    {
      if 1 <= value <= 3 {
        dim := value;
        return None;
      }
      return Some(AttributeError);
    }

    /** `s = value`: a value outside [0, 1) raises AttributeError and keeps the old one. */
    method SetS(value: real) returns (err: Option<Error>)
      modifies this`s
      ensures InUnitInterval(value) ==> err == None && s == value
      ensures !InUnitInterval(value) ==> err == Some(AttributeError) && s == old(s)
      ensures old(Valid()) ==> Valid()
    {
      if value < 0.0 || value >= 1.0 {
        return Some(AttributeError);
      }
      s := value;
      return None;
    }

    /** `M = value`: a value outside [0, 1) raises AttributeError and keeps the old one. */
    method SetM(value: real) returns (err: Option<Error>)
      modifies this`M
      ensures InUnitInterval(value) ==> err == None && M == value
      ensures !InUnitInterval(value) ==> err == Some(AttributeError) && M == old(M)
      ensures old(Valid()) ==> Valid()
    {
      if value < 0.0 || value >= 1.0 {
        return Some(AttributeError);
      }
      M := value;
      return None;
    }

    /** `to_dict`: `active` and the attributes, alphabetical. */
    function ToDict(): seq<(string, Json)>
      reads this
    {
      CriterionDict(active, Attributes(PuckSettings(selection, dim, s, M)))
    }

    /** What a combined criterion keeps of this one. */
    function Snapshot(): Criterion
      reads this
    {
      Criterion(name, ToDict())
    }
  }

  /**
   * `PuckCriterion(**kwargs)`: the base sets the name "Puck" and `active`,
   * then the keywords go through their setters in signature order (`dim`
   * before `s` before `M`); the first rejected value raises AttributeError.
   */
  method NewPuckCriterion(args: PuckSettings) returns (r: Result<PuckCriterion>)
    ensures r.Ok? <==> Admissible(args)
    ensures r.Err? ==> r.error == AttributeError
    ensures r.Ok? ==> fresh(r.value) && r.value.name == "Puck" && r.value.active
    ensures r.Ok? ==> r.value.selection == args.selection && r.value.dim == args.dim
    ensures r.Ok? ==> r.value.s == args.s && r.value.M == args.M && r.value.Valid()
  {
    var c := new PuckCriterion.Base("Puck", true);
    c.selection := args.selection;
    var err := c.SetDim(args.dim);
    if err.Some? { return Err(err.value); }
    err := c.SetS(args.s);
    if err.Some? { return Err(err.value); }
    err := c.SetM(args.M);
    if err.Some? { return Err(err.value); }
    return Ok(c);
  }
}
