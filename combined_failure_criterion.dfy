// The combined failure criterion: a named registry of failure criteria keyed
// by criterion name, and its dict for the failure evaluator, keyed by the
// criterion name in lower case with underscores for spaces. Criteria enter
// the registry as a snapshot of their name and their `to_dict`.
module CombinedCriterion {
  import opened Common
  import opened FailureCriterionBase

  /** The key the result definition puts the combined dict under. */
  const JsonDictKey: string := "criteria"

  /** Python's `str.lower()` on one character, for ASCII letters. */
  function LowerAscii(c: char): char
  {
    if 'A' <= c <= 'Z' then (c as int + 32) as char else c
  }

  /** `name.lower().replace(" ", "_")`: the key of a criterion in the combined dict. */
  function CriterionKey(name: string): (r: string)
    ensures |r| == |name|
    ensures forall i :: 0 <= i < |r| ==> r[i] != ' ' && !('A' <= r[i] <= 'Z')
    ensures forall i :: 0 <= i < |r| && name[i] != ' ' && !('A' <= name[i] <= 'Z') ==> r[i] == name[i]
  {
    seq(|name|, i requires 0 <= i < |name| => if name[i] == ' ' then '_' else LowerAscii(name[i]))
  }

  /** A key is already normalised: normalising twice is normalising once. */
  lemma CriterionKeyIdempotent(name: string)
    ensures CriterionKey(CriterionKey(name)) == CriterionKey(name)
  {
    var k := CriterionKey(name);
    assert forall i :: 0 <= i < |k| ==> CriterionKey(k)[i] == k[i];
  }

  /** The keys of the criteria the evaluator knows by these names. */
  lemma KnownCriterionKeys()
    ensures CriterionKey("Max Strain") == "max_strain"
    ensures CriterionKey("Max Stress") == "max_stress"
  {
    assert CriterionKey("Max Strain") == "max_strain" by {
      assert CriterionKey("Max Strain")[0] == 'm' && CriterionKey("Max Strain")[3] == '_';
    }
    assert CriterionKey("Max Stress") == "max_stress" by {
      assert CriterionKey("Max Stress")[0] == 'm' && CriterionKey("Max Stress")[3] == '_';
    }
  }

  /** Every registry entry is keyed by its criterion's own name. */
  predicate KeyedByName(entries: seq<(string, Criterion)>)
  {
    forall i :: 0 <= i < |entries| ==> entries[i].0 == entries[i].1.name
  }

  /** The criteria as the items `insert` writes, one by one. */
  function ByName(criteria: seq<Criterion>): (r: seq<(string, Criterion)>)
    ensures KeyedByName(r)
  {
    seq(|criteria|, i requires 0 <= i < |criteria| => (criteria[i].name, criteria[i]))
  }

  /** The items `to_dict` writes, one per registered criterion, in registry order. */
  function DictItems(entries: seq<(string, Criterion)>): seq<(string, Json)>
  {
    seq(|entries|, i requires 0 <= i < |entries| => (CriterionKey(entries[i].1.name), JObj(entries[i].1.dict)))
  }

  /** The combined dict: every criterion's `to_dict` under its key. */
  function CombinedDict(entries: seq<(string, Criterion)>): seq<(string, Json)>
  {
    Update([], DictItems(entries))
  }

  /** The combined dict has one key per normalised criterion name and no other. */
  lemma CombinedDictKeys(entries: seq<(string, Criterion)>)
    ensures KeySet(CombinedDict(entries)) == set i | 0 <= i < |entries| :: CriterionKey(entries[i].1.name)
  {
    var items := DictItems(entries);
    UpdateKeys([], items);
    assert KeySet<Json>([]) == {};
    forall k | k in KeySet(items) ensures k in set i | 0 <= i < |entries| :: CriterionKey(entries[i].1.name) {
      var i :| 0 <= i < |items| && items[i].0 == k;
    }
    forall i | 0 <= i < |entries| ensures CriterionKey(entries[i].1.name) in KeySet(items) {
      assert items[i].0 == CriterionKey(entries[i].1.name);
    }
  }

  /**
   * Two criteria whose names normalise to the same key collide: the key holds
   * the dict of the last of them in registry order.
   */
  lemma CombinedDictLastWins(entries: seq<(string, Criterion)>, k: string)
    requires k in KeySet(DictItems(entries))
    ensures var i := LastIndex(DictItems(entries), k);
      0 <= i < |entries| && CriterionKey(entries[i].1.name) == k
      && (forall j :: i < j < |entries| ==> CriterionKey(entries[j].1.name) != k)
      && Lookup(CombinedDict(entries), k) == Some(JObj(entries[i].1.dict))
  {
    var items := DictItems(entries);
    UpdateLastWins([], items, k);
    var i := LastIndex(items, k);
    forall j | i < j < |entries| ensures CriterionKey(entries[j].1.name) != k {
      assert items[j].0 != k;
    }
  }

  class CombinedFailureCriterion {
    var name: string
    /** The registry: criteria by name, in insertion order. */
    var failureCriteria: seq<(string, Criterion)>

    /** The registry invariant `insert` and `remove` keep. */
    predicate Valid()
      reads this
    {
      DistinctKeys(failureCriteria) && KeyedByName(failureCriteria)
    }

    /**
     * `CombinedFailureCriterion(name, failure_criteria)`: an empty registry,
     * every given criterion inserted in order, then the name.
     */
    constructor (name: string, criteria: seq<Criterion>)
      ensures this.name == name && failureCriteria == Update([], ByName(criteria)) && Valid()
    {
      this.name := name;
      failureCriteria := [];
      new;
      var i := 0;
      while i < |criteria|
        invariant 0 <= i <= |criteria|
        invariant this.name == name && Valid()
        invariant failureCriteria == Update([], ByName(criteria[..i]))
      {
        Insert(Some(criteria[i]));
        assert ByName(criteria[..i + 1])[..i] == ByName(criteria[..i]);
        i := i + 1;
      }
      assert criteria[..i] == criteria;
    }

    /**
     * `insert(fc)`: None is ignored; otherwise the criterion goes in under its
     * name, replacing one of the same name in place.
     */
    method Insert(fc: Option<Criterion>)
      modifies this`failureCriteria
      ensures fc.None? ==> failureCriteria == old(failureCriteria)
      ensures fc.Some? ==> failureCriteria == Put(old(failureCriteria), fc.value.name, fc.value)
      ensures old(Valid()) ==> Valid()
    {
      if fc.Some? {
        var next := Put(failureCriteria, fc.value.name, fc.value);
        if Valid() {
          PutDistinct(failureCriteria, fc.value.name, fc.value);
          PutItems(failureCriteria, fc.value.name, fc.value);
          forall i | 0 <= i < |next| ensures next[i].0 == next[i].1.name {
            assert next[i] in next;
            if next[i] != (fc.value.name, fc.value) {
              var j :| 0 <= j < |failureCriteria| && failureCriteria[j] == next[i];
            }
          }
        }
        failureCriteria := next;
      }
    }

    /**
     * `remove(key)`: an absent key raises KeyError and changes nothing;
     * otherwise the criterion leaves the registry and is returned.
     */
    method Remove(key: string) returns (r: Result<Criterion>)
      modifies this`failureCriteria
      ensures key !in KeySet(old(failureCriteria)) ==> r == Err(KeyError) && failureCriteria == old(failureCriteria)
      ensures key in KeySet(old(failureCriteria)) ==>
        r == Ok(Lookup(old(failureCriteria), key).value) && failureCriteria == Pop(old(failureCriteria), key)
      ensures old(Valid()) ==> Valid()
    {
      var found := Lookup(failureCriteria, key);
      if found.None? {
        return Err(KeyError);
      }
      if Valid() {
        PopDistinct(failureCriteria, key);
        PopItems(failureCriteria, key);
        var next := Pop(failureCriteria, key);
        forall i | 0 <= i < |next| ensures next[i].0 == next[i].1.name {
          assert next[i] in next;
          var j :| 0 <= j < |failureCriteria| && failureCriteria[j] == next[i];
        }
      }
      failureCriteria := Pop(failureCriteria, key);
      return Ok(found.value);
    }

    /** `to_dict`: for every criterion in order, its dict under its key; a later key overwrites. */
    method ToDict() returns (criteria: seq<(string, Json)>)
      ensures criteria == CombinedDict(failureCriteria)
    {
      criteria := [];
      var i := 0;
      while i < |failureCriteria|
        invariant 0 <= i <= |failureCriteria|
        invariant criteria == Update([], DictItems(failureCriteria[..i]))
      {
        var fc := failureCriteria[i].1;
        assert DictItems(failureCriteria[..i + 1])[..i] == DictItems(failureCriteria[..i]);
        criteria := Put(criteria, CriterionKey(fc.name), JObj(fc.dict));
        i := i + 1;
      }
      assert failureCriteria[..i] == failureCriteria;
    }
  }

  /** Inserting a criterion whose name is registered replaces it: the count stays. */
  lemma {:induction false} InsertSameNameKeepsCount(entries: seq<(string, Criterion)>, fc: Criterion)
    requires fc.name in KeySet(entries)
    ensures |Put(entries, fc.name, fc)| == |entries|
    ensures Lookup(Put(entries, fc.name, fc), fc.name) == Some(fc)
  {
    PutLength(entries, fc.name, fc);
    PutGet(entries, fc.name, fc);
  }
}
