// The quadratic criteria (Tsai-Wu, Tsai-Hill and Hoffman): one shared class
// holding a weight and the 2-D or 3-D formulation; the three criteria differ
// only in their name.
module Quadratic {
  import opened Common
  import opened FailureCriterionBase

  /** The public attributes other than `name` and `active`, by attribute name. */
  function Attributes(wf: real, dim: int): (r: seq<(string, Json)>)
    ensures OwnAttributes(r)
  {
    [("dim", JNum(dim as real)), ("wf", JNum(wf))]
  }

  class QuadraticCriterion {
    const name: string
    var active: bool
    var wf: real
    var dim: int

    /** The base-class part of construction: the name and the `active` flag. */
    constructor Base(name: string, active: bool)
      ensures this.name == name && this.active == active
    {
      this.name := name;
      this.active := active;
    }

    /** The class invariant the `dim` setter keeps. */
    predicate Valid()
      reads this
    {
      PlanarOrSolid(dim)
    }

    /** `dim = value`: anything but 2 or 3 raises AttributeError and keeps the old formulation. */
    method SetDim(value: int) returns (err: Option<Error>)
      modifies this`dim
      ensures PlanarOrSolid(value) ==> err == None && dim == value
      ensures !PlanarOrSolid(value) ==> err == Some(AttributeError) && dim == old(dim)
      ensures old(Valid()) ==> Valid()
    {
      if value == 2 || value == 3 {
        dim := value;
        return None;
      }
      return Some(AttributeError);
    }

    /** `to_dict`: `active`, `dim` and `wf`. */
    function ToDict(): seq<(string, Json)>
      reads this
    {
      CriterionDict(active, Attributes(wf, dim))
    }

    /** What a combined criterion keeps of this one. */
    function Snapshot(): Criterion
      reads this
    {
      Criterion(name, ToDict())
    }
  }

  /** `QuadraticFailureCriterion(name=…, active=…, wf=…, dim=…)`: `dim` first, then `wf`. */
  method NewQuadraticCriterion(name: string, active: bool, wf: real, dim: int)
    returns (r: Result<QuadraticCriterion>)
    ensures r.Ok? <==> PlanarOrSolid(dim)
    ensures r.Err? ==> r.error == AttributeError
    ensures r.Ok? ==> fresh(r.value) && r.value.name == name && r.value.active == active
    ensures r.Ok? ==> r.value.wf == wf && r.value.dim == dim && r.value.Valid()
  {
    var c := new QuadraticCriterion.Base(name, active);
    var err := c.SetDim(dim);
    if err.Some? { return Err(err.value); }
    c.wf := wf;
    return Ok(c);
  }

  /** `TsaiWuCriterion(active=…, wf=…, dim=…)`. */
  method NewTsaiWuCriterion(active: bool, wf: real, dim: int) returns (r: Result<QuadraticCriterion>)
    ensures r.Ok? <==> PlanarOrSolid(dim)
    ensures r.Err? ==> r.error == AttributeError
    ensures r.Ok? ==> fresh(r.value) && r.value.name == "Tsai Wu" && r.value.active == active
    ensures r.Ok? ==> r.value.wf == wf && r.value.dim == dim && r.value.Valid()
  {
    r := NewQuadraticCriterion("Tsai Wu", active, wf, dim);
  }

  /** `TsaiHillCriterion(active=…, wf=…, dim=…)`. */
  method NewTsaiHillCriterion(active: bool, wf: real, dim: int) returns (r: Result<QuadraticCriterion>)
    ensures r.Ok? <==> PlanarOrSolid(dim)
    ensures r.Err? ==> r.error == AttributeError
    ensures r.Ok? ==> fresh(r.value) && r.value.name == "Tsai Hill" && r.value.active == active
    ensures r.Ok? ==> r.value.wf == wf && r.value.dim == dim && r.value.Valid()
  {
    r := NewQuadraticCriterion("Tsai Hill", active, wf, dim);
  }

  /** `HoffmanCriterion(active=…, wf=…, dim=…)`. */
  method NewHoffmanCriterion(active: bool, wf: real, dim: int) returns (r: Result<QuadraticCriterion>)
    ensures r.Ok? <==> PlanarOrSolid(dim)
    ensures r.Err? ==> r.error == AttributeError
    ensures r.Ok? ==> fresh(r.value) && r.value.name == "Hoffman" && r.value.active == active
    ensures r.Ok? ==> r.value.wf == wf && r.value.dim == dim && r.value.Valid()
  {
    r := NewQuadraticCriterion("Hoffman", active, wf, dim);
  }

  /** The dict of a default quadratic criterion lists `active`, `dim` and `wf` in that order. */
  lemma DefaultDict()
    ensures CriterionDict(true, Attributes(1.0, 2)) == [("active", JBool(true)), ("dim", JNum(2.0)), ("wf", JNum(1.0))]
  {
    var items := [("active", JBool(true)), ("dim", JNum(2.0)), ("wf", JNum(1.0))];
    assert StrLess("active", "dim") && StrLess("dim", "wf");
    assert [("active", JBool(true))] + Attributes(1.0, 2) == items;
    assert items[1..] == [("dim", JNum(2.0)), ("wf", JNum(1.0))];
    assert items[2..] == [("wf", JNum(1.0))];
  }
}
