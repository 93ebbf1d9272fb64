// The LaRC criterion's configuration: fibre and matrix modes in tension and
// compression, their weights, and the 2-D or 3-D formulation.
module LaRC {
  import opened Common
  import opened FailureCriterionBase

  /** The attributes without a check. */
  datatype LaRCSelection = LaRCSelection(
    lft: bool, lfc: bool, lmt: bool, lmc: bool,
    wfLft: real, wfLfc: real, wfLmt: real, wfLmc: real)

  /** The constructor's keyword arguments. */
  datatype LaRCSettings = LaRCSettings(selection: LaRCSelection, dim: int)

  /** The constructor's defaults: every mode on, 2-D, weights 1. */
  function Defaults(): (args: LaRCSettings)
    ensures PlanarOrSolid(args.dim)
  {
    LaRCSettings(LaRCSelection(true, true, true, true, 1.0, 1.0, 1.0, 1.0), 2)
  }

  /** The public attributes other than `name` and `active`, by attribute name. */
  function Attributes(args: LaRCSettings): (r: seq<(string, Json)>)
    ensures OwnAttributes(r)
  {
    var sel := args.selection;
    [("lft", JBool(sel.lft)), ("lfc", JBool(sel.lfc)), ("lmt", JBool(sel.lmt)),
     ("lmc", JBool(sel.lmc)), ("dim", JNum(args.dim as real)),
     ("wf_lft", JNum(sel.wfLft)), ("wf_lfc", JNum(sel.wfLfc)),
     ("wf_lmt", JNum(sel.wfLmt)), ("wf_lmc", JNum(sel.wfLmc))]
  }

  class LaRCCriterion {
    const name: string
    var active: bool
    /** The attributes with plain setters. */
    var selection: LaRCSelection
    var dim: int

    /** The base-class part of construction: the name and the `active` flag. */
    constructor Base(name: string, active: bool)
      ensures this.name == name && this.active == active
    {
      this.name := name;
      this.active := active;
    }

    /** The class invariant the `dim` setter keeps. */
    predicate Valid()
      reads this
    {
      PlanarOrSolid(dim)
    }

    /** `dim = value`: anything but 2 or 3 raises AttributeError and keeps the old formulation. */
    method SetDim(value: int) returns (err: Option<Error>)
      modifies this`dim
      ensures PlanarOrSolid(value) ==> err == None && dim == value
      ensures !PlanarOrSolid(value) ==> err == Some(AttributeError) && dim == old(dim)
      ensures old(Valid()) ==> Valid()
    {
      if value == 2 || value == 3 {
        dim := value;
        return None;
      }
      return Some(AttributeError);
    }

    /** `to_dict`: `active` and the attributes, alphabetical. */
    function ToDict(): seq<(string, Json)>
      reads this
    {
      CriterionDict(active, Attributes(LaRCSettings(selection, dim)))
    }

    /** What a combined criterion keeps of this one. */
    function Snapshot(): Criterion
      reads this
    {
      Criterion(name, ToDict())
    }
  }

  /** `LaRCCriterion(**kwargs)`: the name "LaRC", `active`, then the keywords through their setters. */
  method NewLaRCCriterion(args: LaRCSettings) returns (r: Result<LaRCCriterion>)
    ensures r.Ok? <==> PlanarOrSolid(args.dim)
    ensures r.Err? ==> r.error == AttributeError
    ensures r.Ok? ==> fresh(r.value) && r.value.name == "LaRC" && r.value.active && r.value.Valid()
    ensures r.Ok? ==> r.value.selection == args.selection && r.value.dim == args.dim
  {
    var c := new LaRCCriterion.Base("LaRC", true);
    c.selection := args.selection;
    var err := c.SetDim(args.dim);
    if err.Some? { return Err(err.value); }
    return Ok(c);
  }
}
