// The older combined failure criterion. Its registry behaves like the newer
// one, but `remove` answers None for an absent key, `to_dict` merges the
// criteria's dicts into one and wraps it under "criteria", and the
// constructor never stores its name.
module LegacyCombinedCriterion {
  import opened Common
  import opened FailureCriterionBase
  import CombinedCriterion

  /** The key the merged criteria go under. */
  const JsonDictKey: string := "criteria"

  /** Every criterion's dict merged in registry order: `criteria.update(fc.to_dict())`. */
  function MergedDict(entries: seq<(string, Criterion)>): seq<(string, Json)>
  {
    if entries == [] then []
    else Update(MergedDict(entries[..|entries| - 1]), entries[|entries| - 1].1.dict)
  }

  /** The merged dict holds exactly the keys of the criteria's dicts. */
  lemma {:induction false} MergedDictKeys(entries: seq<(string, Criterion)>)
    ensures KeySet(MergedDict(entries)) == set i, k | 0 <= i < |entries| && k in KeySet(entries[i].1.dict) :: k
  {
    if entries == [] {
      assert KeySet<Json>([]) == {};
    } else {
      var n := |entries| - 1;
      var p := entries[..n];
      MergedDictKeys(p);
      UpdateKeys(MergedDict(p), entries[n].1.dict);
      forall k | k in KeySet(MergedDict(entries))
        ensures k in set i, k | 0 <= i < |entries| && k in KeySet(entries[i].1.dict) :: k
      {
        if k in KeySet(MergedDict(p)) {
          var i :| 0 <= i < |p| && k in KeySet(p[i].1.dict);
          assert entries[i] == p[i];
        }
      }
      forall i, k | 0 <= i < |entries| && k in KeySet(entries[i].1.dict)
        ensures k in KeySet(MergedDict(entries))
      {
        if i < n {
          assert entries[i] == p[i];
        }
      }
    }
  }

  class CombinedFailureCriterion {
    /** `_name`: absent until the setter stores one. */
    var name: Option<string>
    /** The registry: criteria by name, in insertion order. */
    var failureCriteria: seq<(string, Criterion)>

    /** The registry invariant `insert` and `remove` keep. */
    predicate Valid()
      reads this
    {
      DistinctKeys(failureCriteria) && CombinedCriterion.KeyedByName(failureCriteria)
    }

    /** `CombinedFailureCriterion(name)` as written: an empty registry; the name is dropped. */
    constructor (name: string)
      ensures this.name == None && failureCriteria == [] && Valid()
    {
      this.name := None;
      failureCriteria := [];
    }

    /** The constructor as evidently intended: it stores its name. */
    constructor Named(name: string)
      ensures this.name == Some(name) && failureCriteria == [] && Valid()
    {
      this.name := Some(name);
      failureCriteria := [];
    }

    /** The `name` getter: reading an unset `_name` raises AttributeError. */
    method GetName() returns (r: Result<string>)
      ensures name.None? ==> r == Err(AttributeError)
      ensures name.Some? ==> r == Ok(name.value)
    {
      if name.None? {
        return Err(AttributeError);
      }
      return Ok(name.value);
    }

    /** The `name` setter. */
    method SetName(value: string)
      modifies this`name
      ensures name == Some(value)
    {
      name := Some(value);
    }

    /** `insert(fc)`: None is ignored; otherwise the criterion goes in under its name, replacing one of that name. */
    method Insert(fc: Option<Criterion>)
      modifies this`failureCriteria
      ensures fc.None? ==> failureCriteria == old(failureCriteria)
      ensures fc.Some? ==> failureCriteria == Put(old(failureCriteria), fc.value.name, fc.value)
      ensures old(Valid()) ==> Valid()
    {
      if fc.Some? {
        var next := Put(failureCriteria, fc.value.name, fc.value);
        if Valid() {
          PutDistinct(failureCriteria, fc.value.name, fc.value);
          PutItems(failureCriteria, fc.value.name, fc.value);
          forall i | 0 <= i < |next| ensures next[i].0 == next[i].1.name {
            assert next[i] in next;
            if next[i] != (fc.value.name, fc.value) {
              var j :| 0 <= j < |failureCriteria| && failureCriteria[j] == next[i];
            }
          }
        }
        failureCriteria := next;
      }
    }

    /** `remove(key)`: an absent key answers None and changes nothing; otherwise the criterion leaves and is returned. */
    method Remove(key: string) returns (r: Option<Criterion>)
      modifies this`failureCriteria
      ensures key !in KeySet(old(failureCriteria)) ==> r == None && failureCriteria == old(failureCriteria)
      ensures key in KeySet(old(failureCriteria)) ==>
        r == Lookup(old(failureCriteria), key) && r.Some? && failureCriteria == Pop(old(failureCriteria), key)
      ensures old(Valid()) ==> Valid()
    {
      r := Lookup(failureCriteria, key);
      if r.None? {
        return;
      }
      if Valid() {
        PopDistinct(failureCriteria, key);
        PopItems(failureCriteria, key);
        var next := Pop(failureCriteria, key);
        forall i | 0 <= i < |next| ensures next[i].0 == next[i].1.name {
          assert next[i] in next;
          var j :| 0 <= j < |failureCriteria| && failureCriteria[j] == next[i];
        }
      }
      failureCriteria := Pop(failureCriteria, key);
    }

    /** `to_dict`: the criteria's dicts merged in registry order, under "criteria". */
    method ToDict() returns (r: seq<(string, Json)>)
      ensures r == [(JsonDictKey, JObj(MergedDict(failureCriteria)))]
    {
      var criteria := [];
      var i := 0;
      while i < |failureCriteria|
        invariant 0 <= i <= |failureCriteria|
        invariant criteria == MergedDict(failureCriteria[..i])
      {
        assert failureCriteria[..i + 1][..i] == failureCriteria[..i];
        criteria := Update(criteria, failureCriteria[i].1.dict);
        i := i + 1;
      }
      assert failureCriteria[..i] == failureCriteria;
      r := [(JsonDictKey, JObj(criteria))];
    }
  }

  /** As written: whatever name it is given, a new combined criterion has no readable name. */
  method NameAfterConstruction(name: string) returns (r: Result<string>)
    ensures r == Err(AttributeError)
  {
    var c := new CombinedFailureCriterion(name);
    r := c.GetName();
  }

  /** As intended: a new combined criterion answers the name it was given. */
  method NameAfterNamedConstruction(name: string) returns (r: Result<string>)
    ensures r == Ok(name)
  {
    var c := new CombinedFailureCriterion.Named(name);
    r := c.GetName();
  }
}
