// Shared vocabulary: optional values, the Python exceptions the library raises,
// results that carry them, and the string helpers the name-based rules need.
module Common {

  datatype Option<T> = None | Some(value: T)

  /** The exception classes raised by the library; messages are not modelled. */
  datatype Error =
    | RuntimeError
    | ValueError
    | KeyError
    | IndexError
    | AttributeError
    | AssertionError
    | TypeError
    | ZeroDivisionError
    | OSError
    | Exception

  /** The value a call returns, or the exception it raises. */
  datatype Result<T> = Ok(value: T) | Err(error: Error)

  predicate StartsWith(s: string, prefix: string)
  {
    |prefix| <= |s| && s[..|prefix|] == prefix
  }

  predicate EndsWith(s: string, suffix: string)
  {
    |suffix| <= |s| && s[|s| - |suffix|..] == suffix
  }

  /** Python's `str < str`: lexicographic by code point, a proper prefix first. */
  predicate StrLess(a: string, b: string)
    decreases |a|
  {
    if |a| == 0 then |b| > 0
    else if |b| == 0 then false
    else if a[0] == b[0] then StrLess(a[1..], b[1..])
    else a[0] < b[0]
  }

  /** Keys in strictly increasing Python order, as `sorted(dir(obj))` produces them. */
  predicate StrictlySorted(keys: seq<string>)
  {
    forall i :: 0 < i < |keys| ==> StrLess(keys[i - 1], keys[i])
  }

  lemma {:induction false} StrLessIrreflexive(a: string)
    ensures !StrLess(a, a)
    decreases |a|
  {
    if |a| > 0 {
      StrLessIrreflexive(a[1..]);
    }
  }

  lemma {:induction false} StrLessTransitive(a: string, b: string, c: string)
    requires StrLess(a, b) && StrLess(b, c)
    ensures StrLess(a, c)
    decreases |a|
  {
    if |a| > 0 && |b| > 0 && |c| > 0 && a[0] == b[0] && b[0] == c[0] {
      StrLessTransitive(a[1..], b[1..], c[1..]);
    }
  }

  /** Python's `range(n)` as a sequence; empty for n <= 0. */
  function Range(n: int): (r: seq<int>)
    ensures |r| == (if n <= 0 then 0 else n)
    ensures forall i :: 0 <= i < |r| ==> r[i] == i
  {
    if n <= 0 then [] else seq(n, i requires 0 <= i < n => i)
  }

  /** Python's (and numpy's) position for index `i` into `n` items: negative indices count from the end. */
  function PyIndex(n: int, i: int): (r: Option<int>)
    ensures r.Some? <==> -n <= i < n
    ensures r.Some? ==> 0 <= r.value < n && (r.value == i || r.value == n + i)
  {
    if 0 <= i < n then Some(i) else if -n <= i < 0 then Some(n + i) else None
  }

  /** Python's `a // b`: division rounding towards minus infinity. */
  function FloorDiv(a: int, b: int): int
    requires b != 0
  {
    if b > 0 then a / b else (-a) / (-b)
  }

  /** Where a Python slice bound `i` lands in a sequence of length `n`. */
  function SliceBound(n: nat, i: int): (r: nat)
    ensures r <= n
  {
    if i < 0 then (if n + i < 0 then 0 else n + i) else if i > n then n else i
  }

  /** Python's `s[lo:hi]`: bounds are clamped and an inverted range is empty. */
  function PySlice<T>(s: seq<T>, lo: int, hi: int): seq<T>
  {
    var a := SliceBound(|s|, lo);
    var b := SliceBound(|s|, hi);
    if a < b then s[a..b] else []
  }

  /** Quotient and remainder of a division by a positive divisor are unique. */
  lemma DivUnique(i: int, d: int, q: int, r: int)
    requires d > 0 && 0 <= r < d && i == q * d + r
    ensures i / d == q && i % d == r
  {
    var k := i / d - q;
    assert d * k == r - i % d by {
      assert i == d * (i / d) + i % d;
      assert d * (i / d) - d * q == d * k;
    }
    MulAwayFromZero(d, k);
  }

  lemma MulAwayFromZero(d: int, k: int)
    requires d > 0
    ensures k >= 1 ==> d * k >= d
    ensures k <= -1 ==> d * k <= -d
  {
  }

  /** Python's `max` of a non-empty collection. */
  function Max(s: seq<int>): (r: int)
    requires |s| > 0
    ensures r in s
    ensures forall x :: x in s ==> x <= r
  {
    if |s| == 1 then s[0]
    else
      var rest := Max(s[1..]);
      assert forall x :: x in s ==> x == s[0] || x in s[1..];
      if s[0] >= rest then s[0] else rest
  }

  /** `int(x)` of a float: truncation towards zero. */
  function Trunc(x: real): (r: int)
    ensures x >= 0.0 ==> r as real <= x < r as real + 1.0
    ensures x < 0.0 ==> r as real - 1.0 < x <= r as real
  {
    if x >= 0.0 then x.Floor else -((-x).Floor)
  }

  /** numpy's `a[idx]` with an index list: negative indices count from the end, others out of range raise. */
  function Gather<T>(a: seq<T>, idx: seq<int>): (r: Result<seq<T>>)
    ensures r.Err? <==> exists i :: 0 <= i < |idx| && PyIndex(|a|, idx[i]).None?
    ensures r.Err? ==> r.error == IndexError
    ensures r.Ok? ==> |r.value| == |idx| && forall i :: 0 <= i < |idx| ==> r.value[i] == a[PyIndex(|a|, idx[i]).value]
  {
    if forall i :: 0 <= i < |idx| ==> PyIndex(|a|, idx[i]).Some? then
      Ok(seq(|idx|, i requires 0 <= i < |idx| => a[PyIndex(|a|, idx[i]).value]))
    else Err(IndexError)
  }

  /** `c` is where `row` first reaches its maximum, the index numpy's `argmax` returns. */
  predicate IsFirstMax(row: seq<real>, c: int)
  {
    0 <= c < |row| &&
    (forall j :: 0 <= j < |row| ==> row[j] <= row[c]) &&
    (forall j :: 0 <= j < c ==> row[j] < row[c])
  }

  /** numpy's `argmax` of a non-empty row. */
  function FirstArgMax(row: seq<real>): (r: int)
    requires |row| > 0
    ensures IsFirstMax(row, r)
  {
    if |row| == 1 then 0
    else
      var k := FirstArgMax(row[..|row| - 1]);
      if row[|row| - 1] > row[k] then |row| - 1 else k
  }

  /** There is only one first maximum. */
  lemma FirstMaxUnique(row: seq<real>, a: int, b: int)
    requires IsFirstMax(row, a) && IsFirstMax(row, b)
    ensures a == b
  {
    assert row[a] == row[b];
  }

  /** The blocks of items `0 .. n - 1` concatenated in order; the first failing block stops it. */
  function Blocks<T>(block: nat -> Result<seq<T>>, n: nat): Result<seq<T>>
  {
    if n == 0 then Ok([])
    else
      match Blocks(block, n - 1)
      case Err(e) => Err(e)
      case Ok(below) =>
        match block(n - 1)
        case Err(e) => Err(e)
        case Ok(b) => Ok(below + b)
  }

  /** One more block appends its items, or fails the concatenation with its error. */
  lemma BlocksStep<T>(block: nat -> Result<seq<T>>, i: nat, below: seq<T>)
    requires Blocks(block, i) == Ok(below)
    ensures Blocks(block, i + 1) == if block(i).Err? then Err(block(i).error) else Ok(below + block(i).value)
  {
  }

  /** Once a block fails, the whole concatenation fails with its error. */
  lemma {:induction false} BlocksFail<T>(block: nat -> Result<seq<T>>, i: nat, n: nat)
    requires i <= n && Blocks(block, i).Err?
    ensures Blocks(block, n) == Blocks(block, i)
    decreases n - i
  {
    if i < n {
      BlocksFail(block, i, n - 1);
    }
  }

  /** Writing one more key of a list overwrites the base map with one more key. */
  lemma OverwriteStep<K, V>(base: map<K, V>, written: seq<K>, next: seq<K>, x: K, d: V)
    requires next == written + [x]
    ensures (base + map s | s in written :: d)[x := d] == base + map s | s in next :: d
  {
  }

  /** The keys of a Python dict, given as its items in insertion order. */
  function KeySet<V>(entries: seq<(string, V)>): set<string>
  {
    set i | 0 <= i < |entries| :: entries[i].0
  }

  /** `d[key]`: the value of the first item with that key. */
  function Lookup<V(==)>(entries: seq<(string, V)>, key: string): (r: Option<V>)
    ensures r.None? <==> key !in KeySet(entries)
    ensures r.Some? ==> exists i :: 0 <= i < |entries| && entries[i] == (key, r.value)
  {
    if entries == [] then None
    else if entries[0].0 == key then Some(entries[0].1)
    else
      var rest := Lookup(entries[1..], key);
      assert KeySet(entries) == {entries[0].0} + KeySet(entries[1..]) by {
        forall x | x in KeySet(entries) ensures x in {entries[0].0} + KeySet(entries[1..]) {
          var i :| 0 <= i < |entries| && entries[i].0 == x;
          if i > 0 { assert entries[1..][i - 1].0 == x; }
        }
      }
      if rest.Some? then
        var i :| 0 <= i < |entries[1..]| && entries[1..][i] == (key, rest.value);
        assert entries[i + 1] == (key, rest.value);
        rest
      else rest
  }

  /** The first item with a key is the one `d[key]` finds. */
  lemma {:induction false} LookupAt<V>(d: seq<(string, V)>, i: int)
    requires 0 <= i < |d| && forall j :: 0 <= j < i ==> d[j].0 != d[i].0
    ensures Lookup(d, d[i].0) == Some(d[i].1)
  {
    if i > 0 {
      LookupAt(d[1..], i - 1);
    }
  }

  /** The keys of all items are the keys of all but the last, plus the last one's. */
  lemma KeySetSnoc<V>(items: seq<(string, V)>)
    requires items != []
    ensures KeySet(items) == KeySet(items[..|items| - 1]) + {items[|items| - 1].0}
  {
    var n := |items| - 1;
    forall y | y in KeySet(items) ensures y in KeySet(items[..n]) + {items[n].0} {
      var i :| 0 <= i < |items| && items[i].0 == y;
      if i < n { assert items[..n][i].0 == y; }
    }
    forall y | y in KeySet(items[..n]) ensures y in KeySet(items) {
      var i :| 0 <= i < n && items[..n][i].0 == y;
      assert items[i].0 == y;
    }
  }

  /** No two items of a dict share a key. */
  predicate DistinctKeys<V>(d: seq<(string, V)>)
  {
    forall i, j :: 0 <= i < j < |d| ==> d[i].0 != d[j].0
  }

  /** `d[k] = v`: an existing key keeps its place and takes the new value, a new key goes last. */
  function Put<V>(d: seq<(string, V)>, k: string, v: V): seq<(string, V)>
  {
    if d == [] then [(k, v)]
    else if d[0].0 == k then [(k, v)] + d[1..]
    else [d[0]] + Put(d[1..], k, v)
  }

  /** `d.pop(k)`: the item with key `k` leaves, the others keep their order. */
  function Pop<V>(d: seq<(string, V)>, k: string): seq<(string, V)>
  {
    if d == [] then []
    else if d[0].0 == k then d[1..]
    else [d[0]] + Pop(d[1..], k)
  }

  lemma KeySetCons<V>(x: (string, V), d: seq<(string, V)>)
    ensures KeySet([x] + d) == {x.0} + KeySet(d)
  {
    var e := [x] + d;
    forall y | y in KeySet(e) ensures y in {x.0} + KeySet(d) {
      var i :| 0 <= i < |e| && e[i].0 == y;
      if i > 0 {
        assert e[i] == d[i - 1];
        assert y in KeySet(d);
      }
    }
    forall y | y in KeySet(d) ensures y in KeySet(e) {
      var i :| 0 <= i < |d| && d[i].0 == y;
      assert e[i + 1] == d[i];
    }
    assert e[0].0 == x.0;
  }

  /** After `d[k] = v` the dict holds `k` besides its old keys. */
  lemma {:induction false} PutKeys<V>(d: seq<(string, V)>, k: string, v: V)
    ensures KeySet(Put(d, k, v)) == KeySet(d) + {k}
  {
    if d != [] {
      KeySetCons(d[0], d[1..]);
      assert d == [d[0]] + d[1..];
      if d[0].0 == k {
        KeySetCons((k, v), d[1..]);
      } else {
        PutKeys(d[1..], k, v);
        KeySetCons(d[0], Put(d[1..], k, v));
      }
    } else {
      KeySetCons((k, v), d);
      assert [(k, v)] + d == [(k, v)];
    }
  }

  /** After `d[k] = v`, `d[k]` is `v`. */
  lemma {:induction false} PutGet<V>(d: seq<(string, V)>, k: string, v: V)
    ensures Lookup(Put(d, k, v), k) == Some(v)
  {
    if d != [] && d[0].0 != k {
      PutGet(d[1..], k, v);
    }
  }

  /** `d[k] = v` leaves every other key's value alone. */
  lemma {:induction false} PutOther<V>(d: seq<(string, V)>, k: string, v: V, j: string)
    requires j != k
    ensures Lookup(Put(d, k, v), j) == Lookup(d, j)
  {
    if d != [] && d[0].0 != k && d[0].0 != j {
      PutOther(d[1..], k, v, j);
    }
  }

  /** `d[k] = v` adds an item only for a new key. */
  lemma {:induction false} PutLength<V>(d: seq<(string, V)>, k: string, v: V)
    ensures |Put(d, k, v)| == if k in KeySet(d) then |d| else |d| + 1
  {
    if d != [] {
      KeySetCons(d[0], d[1..]);
      assert d == [d[0]] + d[1..];
      if d[0].0 != k {
        PutLength(d[1..], k, v);
      }
    }
  }

  /** Setting a key keeps the keys distinct. */
  lemma {:induction false} PutDistinct<V>(d: seq<(string, V)>, k: string, v: V)
    requires DistinctKeys(d)
    ensures DistinctKeys(Put(d, k, v))
  {
    if d != [] {
      var r := Put(d, k, v);
      assert DistinctKeys(d[1..]) by {
        forall i, j | 0 <= i < j < |d[1..]| ensures d[1..][i].0 != d[1..][j].0 {
          assert d[1..][i] == d[i + 1] && d[1..][j] == d[j + 1];
        }
      }
      if d[0].0 == k {
        forall i, j | 0 <= i < j < |r| ensures r[i].0 != r[j].0 {
          assert r[i].0 == d[i].0 && r[j].0 == d[j].0;
        }
      } else {
        PutDistinct(d[1..], k, v);
        PutKeys(d[1..], k, v);
        var rest := Put(d[1..], k, v);
        forall i, j | 0 <= i < j < |r| ensures r[i].0 != r[j].0 {
          if i == 0 {
            assert r[j] == rest[j - 1];
            assert rest[j - 1].0 in KeySet(rest);
            if rest[j - 1].0 != k {
              var m :| 0 <= m < |d[1..]| && d[1..][m].0 == rest[j - 1].0;
              assert d[m + 1].0 == rest[j - 1].0;
            }
          } else {
            assert r[i] == rest[i - 1] && r[j] == rest[j - 1];
          }
        }
      }
    }
  }

  /** After `d.pop(k)` the key `k` is gone from a dict with distinct keys. */
  lemma {:induction false} PopKeys<V>(d: seq<(string, V)>, k: string)
    requires DistinctKeys(d)
    ensures KeySet(Pop(d, k)) == KeySet(d) - {k}
  {
    if d != [] {
      KeySetCons(d[0], d[1..]);
      assert d == [d[0]] + d[1..];
      assert DistinctKeys(d[1..]) by {
        forall i, j | 0 <= i < j < |d[1..]| ensures d[1..][i].0 != d[1..][j].0 {
          assert d[1..][i] == d[i + 1] && d[1..][j] == d[j + 1];
        }
      }
      if d[0].0 == k {
        forall m | 0 <= m < |d[1..]|
          ensures d[1..][m].0 != k
        {
          assert d[1..][m] == d[m + 1];
        }
      } else {
        PopKeys(d[1..], k);
        KeySetCons(d[0], Pop(d[1..], k));
      }
    }
  }

  /** `d.pop(k)` returns `d[k]`'s value and leaves every other key's value alone. */
  lemma {:induction false} PopOther<V>(d: seq<(string, V)>, k: string, j: string)
    requires j != k
    ensures Lookup(Pop(d, k), j) == Lookup(d, j)
  {
    if d != [] && d[0].0 != k && d[0].0 != j {
      PopOther(d[1..], k, j);
    }
  }

  /** Every item after `d[k] = v` is the new one or an old one. */
  lemma {:induction false} PutItems<V>(d: seq<(string, V)>, k: string, v: V)
    ensures forall x :: x in Put(d, k, v) ==> x == (k, v) || x in d
  {
    if d != [] && d[0].0 != k {
      PutItems(d[1..], k, v);
    }
  }

  /** Every item after `d.pop(k)` was an item before. */
  lemma {:induction false} PopItems<V>(d: seq<(string, V)>, k: string)
    ensures forall x :: x in Pop(d, k) ==> x in d
  {
    if d != [] && d[0].0 != k {
      PopItems(d[1..], k);
    }
  }

  /** Popping an item keeps the keys distinct. */
  lemma {:induction false} PopDistinct<V>(d: seq<(string, V)>, k: string)
    requires DistinctKeys(d)
    ensures DistinctKeys(Pop(d, k))
  {
    if d != [] {
      var tail := d[1..];
      assert DistinctKeys(tail) by {
        forall i, j | 0 <= i < j < |tail| ensures tail[i].0 != tail[j].0 {
          assert tail[i] == d[i + 1] && tail[j] == d[j + 1];
        }
      }
      if d[0].0 != k {
        PopDistinct(tail, k);
        PopItems(tail, k);
        var rest := Pop(tail, k);
        var r := Pop(d, k);
        assert r == [d[0]] + rest;
        forall i, j | 0 <= i < j < |r| ensures r[i].0 != r[j].0 {
          assert r[j] == rest[j - 1];
          if i == 0 {
            assert r[j] in tail;
            var m :| 0 <= m < |tail| && tail[m] == r[j];
            assert d[m + 1] == r[j];
          } else {
            assert r[i] == rest[i - 1];
          }
        }
      }
    }
  }

  /** `d[k] = v` for every item of `e` in order: Python's `d.update(e)`. */
  function Update<V>(d: seq<(string, V)>, e: seq<(string, V)>): seq<(string, V)>
  {
    if e == [] then d
    else Put(Update(d, e[..|e| - 1]), e[|e| - 1].0, e[|e| - 1].1)
  }

  /** After an update the keys are the old ones and the new ones. */
  lemma {:induction false} UpdateKeys<V>(d: seq<(string, V)>, e: seq<(string, V)>)
    ensures KeySet(Update(d, e)) == KeySet(d) + KeySet(e)
  {
    if e != [] {
      var n := |e| - 1;
      UpdateKeys(d, e[..n]);
      PutKeys(Update(d, e[..n]), e[n].0, e[n].1);
      KeySetSnoc(e);
    }
  }

  /** `e[i]` is the last item of `e` with key `k`. */
  predicate LastWithKey<V>(e: seq<(string, V)>, k: string, i: int)
  {
    0 <= i < |e| && e[i].0 == k && forall j :: i < j < |e| ==> e[j].0 != k
  }

  /** An update leaves the keys it does not mention alone. */
  lemma {:induction false} UpdateOther<V>(d: seq<(string, V)>, e: seq<(string, V)>, k: string)
    requires k !in KeySet(e)
    ensures Lookup(Update(d, e), k) == Lookup(d, k)
  {
    if e != [] {
      var n := |e| - 1;
      KeySetSnoc(e);
      PutOther(Update(d, e[..n]), e[n].0, e[n].1, k);
      UpdateOther(d, e[..n], k);
    }
  }

  /** The position of the last item of `e` with key `k`. */
  function LastIndex<V>(e: seq<(string, V)>, k: string): (i: int)
    requires k in KeySet(e)
    ensures LastWithKey(e, k, i)
  {
    var n := |e| - 1;
    if e[n].0 == k then n
    else
      KeySetSnoc(e);
      var i := LastIndex(e[..n], k);
      assert e[i] == e[..n][i];
      assert forall j :: i < j < n ==> e[j] == e[..n][j];
      i
  }

  /** After an update a key of `e` holds the value of its last item in `e`. */
  lemma {:induction false} UpdateLastWins<V>(d: seq<(string, V)>, e: seq<(string, V)>, k: string)
    requires k in KeySet(e)
    ensures Lookup(Update(d, e), k) == Some(e[LastIndex(e, k)].1)
  {
    var n := |e| - 1;
    var p := e[..n];
    if k == e[n].0 {
      PutGet(Update(d, p), k, e[n].1);
    } else {
      KeySetSnoc(e);
      PutOther(Update(d, p), e[n].0, e[n].1, k);
      UpdateLastWins(d, p, k);
      assert e[LastIndex(p, k)] == p[LastIndex(p, k)];
    }
  }

  /** A parsed JSON value; an object is its items in document order. */
  datatype Json =
    | JNull
    | JBool(b: bool)
    | JNum(n: real)
    | JStr(s: string)
    | JArr(items: seq<Json>)
    | JObj(entries: seq<(string, Json)>)
}
