/** Option and Result, for the source's None values and exceptions. */
module Wrappers {
  datatype Option<+T> = None | Some(value: T)

  datatype Result<+T, +E> = Ok(value: T) | Err(error: E)
}

/** Sequences without duplicates, and filters over them. */
module Sequences {
  ghost predicate Distinct<T>(s: seq<T>) {
    s == [] || (s[0] !in s[1..] && Distinct(s[1..]))
  }

  lemma {:induction false} DistinctIndices<T>(s: seq<T>)
    ensures Distinct(s) <==> forall i, j :: 0 <= i < j < |s| ==> s[i] != s[j]
  {
    if s == [] {
    } else {
      DistinctIndices(s[1..]);
      if Distinct(s) {
        forall i, j | 0 <= i < j < |s| ensures s[i] != s[j] {
          assert s[j] == s[1..][j - 1] && s[j] in s[1..];
          if i > 0 {
            assert s[i] == s[1..][i - 1];
          }
        }
      } else if s[0] in s[1..] {
        var j :| 0 <= j < |s[1..]| && s[1..][j] == s[0];
        assert s[j + 1] == s[0];
      } else {
        var i, j :| 0 <= i < j < |s[1..]| && s[1..][i] == s[1..][j];
        assert s[i + 1] == s[j + 1];
      }
    }
  }

  lemma {:induction false} DistinctAppend<T>(s: seq<T>, x: T)
    ensures Distinct(s + [x]) <==> Distinct(s) && x !in s
  {
    if s == [] {
    } else {
      DistinctAppend(s[1..], x);
      assert (s + [x])[1..] == s[1..] + [x];
      assert s == [s[0]] + s[1..];
    }
  }

  lemma Reassociate<T>(a: seq<T>, b: seq<T>, c: seq<T>)
    ensures (a + b) + c == a + (b + c)
  {
  }

  /** The set of a sequence's elements. */
  function Elems<T>(s: seq<T>): (r: set<T>) {
    set x | x in s
  }

  /** Python's `list.remove`: drops the first occurrence only. */
  function Remove<T(==)>(s: seq<T>, x: T): (r: seq<T>)
    ensures x !in s ==> r == s
    ensures x in s ==> |r| == |s| - 1
  {
    if s == [] then []
    else if s[0] == x then s[1..]
    else [s[0]] + Remove(s[1..], x)
  }

  function Filter<T(!new)>(p: T -> bool, s: seq<T>): (r: seq<T>)
    ensures |r| <= |s|
    ensures forall x :: x in r <==> x in s && p(x)
  {
    if s == [] then []
    else
      var rest := Filter(p, s[1..]);
      assert s == [s[0]] + s[1..];
      if p(s[0]) then [s[0]] + rest else rest
  }

  lemma {:induction false} FilterAppend<T(!new)>(p: T -> bool, s: seq<T>, x: T)
    ensures Filter(p, s + [x]) == Filter(p, s) + (if p(x) then [x] else [])
  {
    if s == [] {
      assert s + [x] == [x] && [x][1..] == [];
    } else {
      assert (s + [x])[0] == s[0] && (s + [x])[1..] == s[1..] + [x];
      FilterAppend(p, s[1..], x);
    }
  }

  lemma {:induction false} FilterKeepsAllIff<T(!new)>(p: T -> bool, s: seq<T>)
    ensures Filter(p, s) == s <==> forall x :: x in s ==> p(x)
  {
    if s == [] {
    } else {
      assert s == [s[0]] + s[1..];
      FilterKeepsAllIff(p, s[1..]);
      assert !p(s[0]) ==> |Filter(p, s)| < |s|;
    }
  }

  lemma {:induction false} FilterSame<T(!new)>(p: T -> bool, q: T -> bool, s: seq<T>)
    requires forall x :: x in s ==> (p(x) <==> q(x))
    ensures Filter(p, s) == Filter(q, s)
  {
    if s == [] {
    } else {
      assert s == [s[0]] + s[1..];
      FilterSame(p, q, s[1..]);
    }
  }

  lemma {:induction false} FilterDistinct<T(!new)>(p: T -> bool, s: seq<T>)
    requires Distinct(s)
    ensures Distinct(Filter(p, s))
  {
    if s == [] {
    } else {
      FilterDistinct(p, s[1..]);
    }
  }

  lemma {:induction false} RemoveCounts<T>(s: seq<T>, x: T)
    ensures multiset(Remove(s, x)) == multiset(s) - multiset{x}
  {
    if s == [] {
    } else {
      assert s == [s[0]] + s[1..];
      RemoveCounts(s[1..], x);
    }
  }

  lemma {:induction false} RemoveDistinct<T>(s: seq<T>, x: T)
    requires Distinct(s)
    ensures Distinct(Remove(s, x))
    ensures forall y :: y in Remove(s, x) <==> y in s && y != x
  {
    if s == [] {
    } else {
      assert s == [s[0]] + s[1..];
      RemoveDistinct(s[1..], x);
      assert s[0] !in s[1..];
    }
  }

  /** A sequence without duplicates has as many elements as its set. */
  lemma {:induction false} DistinctCard<T>(s: seq<T>)
    requires Distinct(s)
    ensures |Elems(s)| == |s|
  {
    if s == [] {
    } else {
      DistinctCard(s[1..]);
      assert Elems(s) == {s[0]} + Elems(s[1..]);
    }
  }

  /** The next element of a distinct sequence is not among those already visited. */
  lemma DistinctNext<T>(s: seq<T>, i: nat)
    requires Distinct(s) && i < |s|
    ensures s[i] !in s[..i] && s[..i + 1] == s[..i] + [s[i]]
  {
    DistinctIndices(s);
  }

  /** The first elements of a distinct sequence are those that are not among the others. */
  lemma DistinctSplit<T>(s: seq<T>, v: nat)
    requires Distinct(s) && v <= |s|
    ensures forall x :: x in s[..v] <==> x in s && x !in s[v..]
  {
    assert s == s[..v] + s[v..];
    DistinctConcat(s[..v], s[v..]);
    forall x | x in s[..v] ensures x !in s[v..] {
      assert x in Elems(s[..v]);
    }
  }

  /** A distinct sequence cut in two: both parts are distinct and they share nothing. */
  lemma {:induction false} DistinctConcat<T>(a: seq<T>, b: seq<T>)
    ensures Distinct(a + b) <==> Distinct(a) && Distinct(b) && Elems(a) !! Elems(b)
  {
    if a == [] {
      assert a + b == b;
    } else {
      assert (a + b)[1..] == a[1..] + b;
      DistinctConcat(a[1..], b);
      assert Elems(a) == {a[0]} + Elems(a[1..]);
    }
  }
}

/**
 * Python's insertion-ordered dictionaries: `keys` is the iteration order,
 * `vals` the lookup table.
 */
module Dicts {
  import opened Sequences

  datatype RawDict<K, V> = RawDict(keys: seq<K>, vals: map<K, V>) {
    ghost predicate Valid() {
      Distinct(keys) && Elems(keys) == vals.Keys
    }
  }

  type Dict<K(==), V> = d: RawDict<K, V> | d.Valid() witness RawDict([], map[])

  function Empty<K(==), V>(): (d: Dict<K, V>) {
    RawDict([], map[])
  }

  /** `d[k] = v`: an existing key keeps its place, a new one goes last. */
  function Put<K(==), V>(d: Dict<K, V>, k: K, v: V): (r: Dict<K, V>)
    ensures r.vals == d.vals[k := v]
    ensures k in d.vals ==> r.keys == d.keys
    ensures k !in d.vals ==> r.keys == d.keys + [k]
  {
    var keys := if k in d.vals then d.keys else d.keys + [k];
    assert Elems(keys) == d.vals.Keys + {k};
    DistinctAppend(d.keys, k);
    RawDict(keys, d.vals[k := v])
  }

  /** `d.pop(k, None)`: a missing key leaves the dictionary alone. */
  function Pop<K(==), V>(d: Dict<K, V>, k: K): (r: Dict<K, V>)
    ensures r.vals == d.vals - {k}
    ensures k !in d.vals ==> r == d
  {
    var keys := Remove(d.keys, k);
    RemoveDistinct(d.keys, k);
    assert Elems(keys) == d.vals.Keys - {k};
    assert k !in d.vals ==> k !in Elems(d.keys) && d.vals - {k} == d.vals;
    RawDict(keys, d.vals - {k})
  }

  /** `d.values()`, in insertion order. */
  function Values<K(==), V>(d: Dict<K, V>): (r: seq<V>)
    ensures |r| == |d.keys|
    ensures forall i :: 0 <= i < |r| ==> d.keys[i] in d.vals && r[i] == d.vals[d.keys[i]]
  {
    assert forall k :: k in d.keys ==> k in Elems(d.keys);
    seq(|d.keys|, i requires 0 <= i < |d.keys| => d.vals[d.keys[i]])
  }

  lemma KeysAre<K, V>(d: Dict<K, V>)
    ensures forall k :: k in d.keys <==> k in d.vals
  {
    assert forall k :: k in d.keys <==> k in Elems(d.keys);
  }

  /** `d.update(e)`: the entries of `e`, in order. */
  function Update<K(==), V>(d: Dict<K, V>, e: Dict<K, V>): (r: Dict<K, V>)
    ensures r.vals == d.vals + e.vals
  {
    assert forall k :: k in e.keys ==> k in Elems(e.keys);
    PutAll(d, e.keys, e.vals)
  }

  function PutAll<K(==), V>(d: Dict<K, V>, ks: seq<K>, m: map<K, V>): (r: Dict<K, V>)
    requires forall k :: k in ks ==> k in m
    ensures r.vals.Keys == d.vals.Keys + Elems(ks)
    ensures forall k :: k in r.vals ==> r.vals[k] == if k in Elems(ks) then m[k] else d.vals[k]
    decreases |ks|
  {
    if ks == [] then d
    else
      assert ks == [ks[0]] + ks[1..];
      PutAll(Put(d, ks[0], m[ks[0]]), ks[1..], m)
  }
}
