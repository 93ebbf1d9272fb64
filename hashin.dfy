// The Hashin criterion's configuration: fibre, matrix and delamination modes,
// their weights, and the 2-D or 3-D formulation.
module Hashin {
  import opened Common
  import opened FailureCriterionBase

  /** The attributes without a check. */
  datatype HashinSelection = HashinSelection(
    hf: bool, hm: bool, hd: bool, wfHf: real, wfHm: real, wfHd: real)

  /** The constructor's keyword arguments. */
  datatype HashinSettings = HashinSettings(selection: HashinSelection, dim: int)

  /** The constructor's defaults: fibre and matrix on, delamination off, 2-D, weights 1. */
  function Defaults(): (args: HashinSettings)
    ensures PlanarOrSolid(args.dim)
  {
    HashinSettings(HashinSelection(true, true, false, 1.0, 1.0, 1.0), 2)
  }

  /** The public attributes other than `name` and `active`, by attribute name. */
  function Attributes(args: HashinSettings): (r: seq<(string, Json)>)
    ensures OwnAttributes(r)
  {
    var sel := args.selection;
    [("hf", JBool(sel.hf)), ("hm", JBool(sel.hm)), ("hd", JBool(sel.hd)),
     ("dim", JNum(args.dim as real)),
     ("wf_hf", JNum(sel.wfHf)), ("wf_hm", JNum(sel.wfHm)), ("wf_hd", JNum(sel.wfHd))]
  }

  class HashinCriterion {
    const name: string
    var active: bool
    /** The attributes with plain setters. */
    var selection: HashinSelection
    var dim: int

    /** The base-class part of construction: the name and the `active` flag. */
    constructor Base(name: string, active: bool)
      ensures this.name == name && this.active == active
    {
      this.name := name;
      this.active := active;
    }

    /** The class invariant the `dim` setter keeps. */
    predicate Valid()
      reads this
    {
      PlanarOrSolid(dim)
    }

    /** `dim = value`: anything but 2 or 3 raises AttributeError and keeps the old formulation. */
    method SetDim(value: int) returns (err: Option<Error>)
      modifies this`dim
      ensures PlanarOrSolid(value) ==> err == None && dim == value
      ensures !PlanarOrSolid(value) ==> err == Some(AttributeError) && dim == old(dim)
      ensures old(Valid()) ==> Valid()
    {
      if value == 2 || value == 3 {
        dim := value;
        return None;
      }
      return Some(AttributeError);
    }

    /** `to_dict`: `active` and the attributes, alphabetical. */
    function ToDict(): seq<(string, Json)>
      reads this
    {
      CriterionDict(active, Attributes(HashinSettings(selection, dim)))
    }

    /** What a combined criterion keeps of this one. */
    function Snapshot(): Criterion
      reads this
    {
      Criterion(name, ToDict())
    }
  }

  /** `HashinCriterion(**kwargs)`: the name "Hashin", `active`, then the keywords through their setters. */
  method NewHashinCriterion(args: HashinSettings) returns (r: Result<HashinCriterion>)
    ensures r.Ok? <==> PlanarOrSolid(args.dim)
    ensures r.Err? ==> r.error == AttributeError
    ensures r.Ok? ==> fresh(r.value) && r.value.name == "Hashin" && r.value.active && r.value.Valid()
    ensures r.Ok? ==> r.value.selection == args.selection && r.value.dim == args.dim
  {
    var c := new HashinCriterion.Base("Hashin", true);
    c.selection := args.selection;
    var err := c.SetDim(args.dim);
    if err.Some? { return Err(err.value); }
    return Ok(c);
  }
}
