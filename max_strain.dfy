// The maximum strain criterion's configuration: six strain components to
// evaluate, their weights, and nine optional global strain limits whose signs
// the setters enforce (tensile and shear limits not negative, compressive
// limits not positive).
module MaxStrain {
  import opened Common
  import opened FailureCriterionBase

  /** The nine global strain limits: tensile, compressive and shear. */
  datatype StrainLimits = StrainLimits(
    eXt: real, eXc: real, eYt: real, eYc: real, eZt: real, eZc: real,
    eSxy: real, eSxz: real, eSyz: real)

  /** The attributes without a check: which strain components count, their weights, and the global-limits switch. */
  datatype StrainSelection = StrainSelection(
    e1: bool, e2: bool, e3: bool, e12: bool, e13: bool, e23: bool,
    wfE1: real, wfE2: real, wfE3: real, wfE12: real, wfE13: real, wfE23: real,
    forceGlobalStrainLimits: bool)

  /** The constructor's keyword arguments, in signature order, in two groups. */
  datatype MaxStrainSettings = MaxStrainSettings(selection: StrainSelection, limits: StrainLimits)

  /** Tensile and shear limits not negative, compressive limits not positive. */
  predicate LimitsAdmissible(l: StrainLimits)
  {
    l.eXt >= 0.0 && l.eYt >= 0.0 && l.eZt >= 0.0
    && l.eXc <= 0.0 && l.eYc <= 0.0 && l.eZc <= 0.0
    && l.eSxy >= 0.0 && l.eSxz >= 0.0 && l.eSyz >= 0.0
  }

  /** The constructor's defaults: e1, e2 and e12 on, all weights 1, global limits off and zero. */
  function Defaults(): (s: MaxStrainSettings)
    ensures LimitsAdmissible(s.limits)
  {
    MaxStrainSettings(
      StrainSelection(
        true, true, false, true, false, false,
        1.0, 1.0, 1.0, 1.0, 1.0, 1.0,
        false),
      StrainLimits(0.0, 0.0, 0.0, 0.0, 0.0, 0.0, 0.0, 0.0, 0.0))
  }

  /** The public attributes other than `name` and `active`, by attribute name. */
  function Attributes(s: MaxStrainSettings): (r: seq<(string, Json)>)
    ensures OwnAttributes(r)
  {
    [("e1", JBool(s.selection.e1)), ("e2", JBool(s.selection.e2)), ("e3", JBool(s.selection.e3)),
     ("e12", JBool(s.selection.e12)), ("e13", JBool(s.selection.e13)), ("e23", JBool(s.selection.e23)),
     ("wf_e1", JNum(s.selection.wfE1)), ("wf_e2", JNum(s.selection.wfE2)), ("wf_e3", JNum(s.selection.wfE3)),
     ("wf_e12", JNum(s.selection.wfE12)), ("wf_e13", JNum(s.selection.wfE13)), ("wf_e23", JNum(s.selection.wfE23)),
     ("force_global_strain_limits", JBool(s.selection.forceGlobalStrainLimits)),
     ("eXt", JNum(s.limits.eXt)), ("eXc", JNum(s.limits.eXc)), ("eYt", JNum(s.limits.eYt)),
     ("eYc", JNum(s.limits.eYc)), ("eZt", JNum(s.limits.eZt)), ("eZc", JNum(s.limits.eZc)),
     ("eSxy", JNum(s.limits.eSxy)), ("eSxz", JNum(s.limits.eSxz)), ("eSyz", JNum(s.limits.eSyz))]
  }

  class MaxStrainCriterion {
    const name: string
    var active: bool
    /** The attributes with plain setters. */
    var selection: StrainSelection
    /** The attributes whose setters check the sign. */
    var limits: StrainLimits

    /** The base-class part of construction: the name and the `active` flag. */
    constructor Base(name: string, active: bool)
      ensures this.name == name && this.active == active
    {
      this.name := name;
      this.active := active;
    }

    /** The class invariant the limit setters keep. */
    predicate Valid()
      reads this
    {
      LimitsAdmissible(limits)
    }

    /** `eXt = value`: a negative tensile limit raises ValueError and keeps the old one. */
    method SetEXt(value: real) returns (err: Option<Error>)
      modifies this`limits
      ensures value < 0.0 ==> err == Some(ValueError) && limits == old(limits)
      ensures value >= 0.0 ==> err == None && limits == old(limits).(eXt := value)
      ensures old(Valid()) ==> Valid()
    {
      if value < 0.0 {
        return Some(ValueError);
      }
      limits := limits.(eXt := value);
      return None;
    }

    /** `eXc = value`: a positive compressive limit raises ValueError and keeps the old one. */
    method SetEXc(value: real) returns (err: Option<Error>)
      modifies this`limits
      ensures value > 0.0 ==> err == Some(ValueError) && limits == old(limits)
      ensures value <= 0.0 ==> err == None && limits == old(limits).(eXc := value)
      ensures old(Valid()) ==> Valid()
    {
      if value > 0.0 {
        return Some(ValueError);
      }
      limits := limits.(eXc := value);
      return None;
    }

    /** `eYt = value`: a negative tensile limit raises ValueError and keeps the old one. */
    method SetEYt(value: real) returns (err: Option<Error>)
      modifies this`limits
      ensures value < 0.0 ==> err == Some(ValueError) && limits == old(limits)
      ensures value >= 0.0 ==> err == None && limits == old(limits).(eYt := value)
      ensures old(Valid()) ==> Valid()
    {
      if value < 0.0 {
        return Some(ValueError);
      }
      limits := limits.(eYt := value);
      return None;
    }

    /** `eYc = value`: a positive compressive limit raises ValueError and keeps the old one. */
    method SetEYc(value: real) returns (err: Option<Error>)
      modifies this`limits
      ensures value > 0.0 ==> err == Some(ValueError) && limits == old(limits)
      ensures value <= 0.0 ==> err == None && limits == old(limits).(eYc := value)
      ensures old(Valid()) ==> Valid()
    {
      if value > 0.0 {
        return Some(ValueError);
      }
      limits := limits.(eYc := value);
      return None;
    }

    /** `eZt = value`: a negative tensile limit raises ValueError and keeps the old one. */
    method SetEZt(value: real) returns (err: Option<Error>)
      modifies this`limits
      ensures value < 0.0 ==> err == Some(ValueError) && limits == old(limits)
      ensures value >= 0.0 ==> err == None && limits == old(limits).(eZt := value)
      ensures old(Valid()) ==> Valid()
    {
      if value < 0.0 {
        return Some(ValueError);
      }
      limits := limits.(eZt := value);
      return None;
    }

    /** `eZc = value`: a positive compressive limit raises ValueError and keeps the old one. */
    method SetEZc(value: real) returns (err: Option<Error>)
      modifies this`limits
      ensures value > 0.0 ==> err == Some(ValueError) && limits == old(limits)
      ensures value <= 0.0 ==> err == None && limits == old(limits).(eZc := value)
      ensures old(Valid()) ==> Valid()
    {
      if value > 0.0 {
        return Some(ValueError);
      }
      limits := limits.(eZc := value);
      return None;
    }

    /** `eSxy = value`: a negative shear limit raises ValueError and keeps the old one. */
    method SetESxy(value: real) returns (err: Option<Error>)
      modifies this`limits
      ensures value < 0.0 ==> err == Some(ValueError) && limits == old(limits)
      ensures value >= 0.0 ==> err == None && limits == old(limits).(eSxy := value)
      ensures old(Valid()) ==> Valid()
    {
      if value < 0.0 {
        return Some(ValueError);
      }
      limits := limits.(eSxy := value);
      return None;
    }

    /** `eSxz = value`: a negative shear limit raises ValueError and keeps the old one. */
    method SetESxz(value: real) returns (err: Option<Error>)
      modifies this`limits
      ensures value < 0.0 ==> err == Some(ValueError) && limits == old(limits)
      ensures value >= 0.0 ==> err == None && limits == old(limits).(eSxz := value)
      ensures old(Valid()) ==> Valid()
    {
      if value < 0.0 {
        return Some(ValueError);
      }
      limits := limits.(eSxz := value);
      return None;
    }

    /** `eSyz = value`: a negative shear limit raises ValueError and keeps the old one. */
    method SetESyz(value: real) returns (err: Option<Error>)
      modifies this`limits
      ensures value < 0.0 ==> err == Some(ValueError) && limits == old(limits)
      ensures value >= 0.0 ==> err == None && limits == old(limits).(eSyz := value)
      ensures old(Valid()) ==> Valid()
    {
      if value < 0.0 {
        return Some(ValueError);
      }
      limits := limits.(eSyz := value);
      return None;
    }

    /** `to_dict`: `active` and the attributes, alphabetical. */
    function ToDict(): seq<(string, Json)>
      reads this
    {
      CriterionDict(active, Attributes(MaxStrainSettings(selection, limits)))
    }

    /** What a combined criterion keeps of this one. */
    function Snapshot(): Criterion
      reads this
    {
      Criterion(name, ToDict())
    }
  }

  /**
   * `MaxStrainCriterion(**kwargs)`: the base sets the name "Max Strain" and
   * `active`, then every keyword goes through its setter in signature order;
   * the first rejected limit raises.
   */
  method NewMaxStrainCriterion(s: MaxStrainSettings) returns (r: Result<MaxStrainCriterion>)
    ensures r.Ok? <==> LimitsAdmissible(s.limits)
    ensures r.Err? ==> r.error == ValueError
    ensures r.Ok? ==> fresh(r.value) && r.value.name == "Max Strain" && r.value.active
    ensures r.Ok? ==> r.value.selection == s.selection && r.value.limits == s.limits && r.value.Valid()
  {
    var c := new MaxStrainCriterion.Base("Max Strain", true);
    c.selection := s.selection;
    var err := c.SetEXt(s.limits.eXt);
    if err.Some? { return Err(err.value); }
    err := c.SetEXc(s.limits.eXc);
    if err.Some? { return Err(err.value); }
    err := c.SetEYt(s.limits.eYt);
    if err.Some? { return Err(err.value); }
    err := c.SetEYc(s.limits.eYc);
    if err.Some? { return Err(err.value); }
    err := c.SetEZt(s.limits.eZt);
    if err.Some? { return Err(err.value); }
    err := c.SetEZc(s.limits.eZc);
    if err.Some? { return Err(err.value); }
    err := c.SetESxy(s.limits.eSxy);
    if err.Some? { return Err(err.value); }
    err := c.SetESxz(s.limits.eSxz);
    if err.Some? { return Err(err.value); }
    err := c.SetESyz(s.limits.eSyz);
    if err.Some? { return Err(err.value); }
    return Ok(c);
  }
}
