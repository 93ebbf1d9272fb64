// What every failure criterion shares: a read-only name, the `active` flag,
// `to_dict` (every public attribute but the name, in the alphabetical order
// `dir()` lists them) and the short description used by `repr`.
module FailureCriterionBase {
  import opened Common

  /** Python's `a <= b` on strings. */
  predicate StrLeq(a: string, b: string)
  {
    a == b || StrLess(a, b)
  }

  /** Two different strings are ordered one way or the other. */
  lemma {:induction false} StrLessTotal(a: string, b: string)
    requires a != b
    ensures StrLess(a, b) || StrLess(b, a)
    decreases |a|
  {
    if |a| > 0 && |b| > 0 && a[0] == b[0] {
      assert a == [a[0]] + a[1..];
      assert b == [b[0]] + b[1..];
      StrLessTotal(a[1..], b[1..]);
    }
  }

  lemma StrLeqTransitive(a: string, b: string, c: string)
    requires StrLeq(a, b) && StrLeq(b, c)
    ensures StrLeq(a, c)
  {
    if a != b && b != c {
      StrLessTransitive(a, b, c);
    }
  }

  /** The keys of a dict's items never decrease. */
  predicate KeysSorted<V>(d: seq<(string, V)>)
  {
    forall i :: 0 < i < |d| ==> StrLeq(d[i - 1].0, d[i].0)
  }

  /** The first key of a sorted dict is the least of them all. */
  lemma {:induction false} SortedFirstLeast<V>(d: seq<(string, V)>, j: int)
    requires KeysSorted(d) && 0 <= j < |d|
    ensures StrLeq(d[0].0, d[j].0)
  {
    if j > 0 {
      SortedFirstLeast(d, j - 1);
      StrLeqTransitive(d[0].0, d[j - 1].0, d[j].0);
    }
  }

  /** One item placed into a sorted dict before the first key not below its own. */
  function InsertByKey<V(==)>(x: (string, V), d: seq<(string, V)>): (r: seq<(string, V)>)
    requires KeysSorted(d)
    ensures |r| == |d| + 1 && (r[0] == x || (d != [] && r[0] == d[0]))
    ensures KeysSorted(r)
    ensures multiset(r) == multiset(d) + multiset{x}
  {
    if d == [] || StrLeq(x.0, d[0].0) then [x] + d
    else
      StrLessTotal(x.0, d[0].0);
      var rest := InsertByKey(x, d[1..]);
      assert d == [d[0]] + d[1..];
      assert StrLeq(d[0].0, rest[0].0) by {
        if rest[0] != x {
          assert rest[0] == d[1];
        }
      }
      [d[0]] + rest
  }

  /** The items ordered by key; items with equal keys keep no particular order. */
  function SortByKey<V(==)>(d: seq<(string, V)>): (r: seq<(string, V)>)
    ensures KeysSorted(r)
    ensures multiset(r) == multiset(d)
  {
    if d == [] then []
    else
      assert d == [d[0]] + d[1..];
      InsertByKey(d[0], SortByKey(d[1..]))
  }

  /** Attribute items of a criterion class: neither the name nor the base's `active` among them. */
  predicate OwnAttributes(attributes: seq<(string, Json)>)
  {
    forall i :: 0 <= i < |attributes| ==> attributes[i].0 != "name" && attributes[i].0 != "active"
  }

  /**
   * `to_dict`: `active` and the class's other public attributes (never the
   * name), keyed by attribute name in alphabetical order.
   */
  function CriterionDict(active: bool, attributes: seq<(string, Json)>): (r: seq<(string, Json)>)
    ensures KeysSorted(r)
    ensures multiset(r) == multiset([("active", JBool(active))] + attributes)
    ensures ("active", JBool(active)) in r
    ensures OwnAttributes(attributes) ==> forall i :: 0 <= i < |r| ==> r[i].0 != "name"
  {
    var items := [("active", JBool(active))] + attributes;
    var r := SortByKey(items);
    assert ("active", JBool(active)) in multiset(r);
    forall i | 0 <= i < |r| ensures OwnAttributes(attributes) ==> r[i].0 != "name" {
      SameItems(r, items, i);
      if r[i] != items[0] {
        var j :| 0 <= j < |items| && items[j] == r[i];
        assert items[j] == attributes[j - 1];
      }
    }
    r
  }

  /** A permutation of a dict's items has the same items. */
  lemma SameItems<V>(a: seq<(string, V)>, b: seq<(string, V)>, i: int)
    requires multiset(a) == multiset(b) && 0 <= i < |a|
    ensures a[i] in b
  {
    assert a[i] in multiset(a);
  }

  /** Python's `str(bool)`. */
  function PyBool(b: bool): string
  {
    if b then "True" else "False"
  }

  /**
   * `_short_descr`: `Class(name='…', active=…)`; the name and the flag can be
   * read back from it.
   */
  function ShortDescr(className: string, name: string, active: bool): (r: string)
    ensures |r| == |className| + |name| + |PyBool(active)| + 18
    ensures StartsWith(r, className + "(name='")
    ensures EndsWith(r, "', active=" + PyBool(active) + ")")
    ensures r[|className| + 7..|r| - |PyBool(active)| - 11] == name
  {
    className + "(name='" + name + "', active=" + PyBool(active) + ")"
  }

  /** The formulations the criteria with a 2-D and a 3-D variant accept: `value in [2, 3]`. */
  predicate PlanarOrSolid(dim: int)
  {
    dim == 2 || dim == 3
  }

  /** What a combined criterion keeps of an inserted criterion: its name and its `to_dict`. */
  datatype Criterion = Criterion(name: string, dict: seq<(string, Json)>)
}
