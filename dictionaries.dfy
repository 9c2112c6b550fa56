/** Insertion-ordered dictionaries and sums over them.

    A .NET Dictionary that is only ever added to or overwritten enumerates its
    keys in insertion order; `Dict` keeps that order in `keys` beside the
    mapping itself. */
module Dictionaries {

  datatype Dict<K, V> = Dict(keys: seq<K>, items: map<K, V>)

  /** No element occurs twice in `s`. */
  ghost predicate Distinct<T>(s: seq<T>) {
    forall i, j :: 0 <= i < j < |s| ==> s[i] != s[j]
  }

  /** Appending a new element keeps a sequence free of repetition. */
  lemma DistinctAppend<T>(s: seq<T>, x: T)
    requires Distinct(s) && x !in s
    ensures Distinct(s + [x])
  {
    forall i, j | 0 <= i < j < |s + [x]| ensures (s + [x])[i] != (s + [x])[j] {
      assert (s + [x])[i] == s[i];
    }
  }

  /** The representation invariant: `keys` lists every key of `items` exactly once. */
  ghost predicate Valid<K, V>(d: Dict<K, V>) {
    && Distinct(d.keys)
    && (forall k | k in d.items :: k in d.keys)
    && (forall k | k in d.keys :: k in d.items)
  }

  function Empty<K, V>(): (d: Dict<K, V>)
    ensures Valid(d) && d.keys == [] && d.items == map[]
  {
    Dict([], map[])
  }

  /** The indexer assignment `d[k] = v`: a new key goes to the end of the
      enumeration order, an existing key keeps its place. */
  function Put<K, V>(d: Dict<K, V>, k: K, v: V): (r: Dict<K, V>)
    requires Valid(d)
    ensures Valid(r)
    ensures r.items == d.items[k := v]
    ensures k in d.items ==> r.keys == d.keys
    ensures k !in d.items ==> r.keys == d.keys + [k]
  {
    if k in d.items then Dict(d.keys, d.items[k := v]) else Dict(d.keys + [k], d.items[k := v])
  }

  /** `m.ContainsKey(k) ? m[k] : dflt` */
  function GetOr<K, V>(m: map<K, V>, k: K, dflt: V): V {
    if k in m then m[k] else dflt
  }

  /** The values stored under `keys`, in order (a key without a value is skipped). */
  function ValuesOf<K, V>(keys: seq<K>, items: map<K, V>): seq<V> {
    if keys == [] then []
    else
      var last := keys[|keys| - 1];
      ValuesOf(keys[..|keys| - 1], items) + if last in items then [items[last]] else []
  }

  /** The LINQ `Sum` of `f` over a sequence. */
  function SumSeq<V>(s: seq<V>, f: V -> int): int {
    if s == [] then 0 else SumSeq(s[..|s| - 1], f) + f(s[|s| - 1])
  }

  /** The LINQ `Sum` of `f` over the values stored under `keys`, in order. */
  function SumOver<K, V>(keys: seq<K>, items: map<K, V>, f: V -> int): int {
    SumSeq(ValuesOf(keys, items), f)
  }

  /** Sums split over concatenation. */
  lemma {:induction false} SumSeqConcat<V>(s: seq<V>, t: seq<V>, f: V -> int)
    ensures SumSeq(s + t, f) == SumSeq(s, f) + SumSeq(t, f)
  {
    if t != [] {
      assert (s + t)[..|s + t| - 1] == s + t[..|t| - 1];
      SumSeqConcat(s, t[..|t| - 1], f);
    } else {
      assert s + t == s;
    }
  }

  /** A key appended to the enumeration adds exactly its own value. */
  lemma {:induction false} SumOverAppend<K, V>(keys: seq<K>, k: K, items: map<K, V>, f: V -> int)
    requires k in items
    ensures SumOver(keys + [k], items, f) == SumOver(keys, items, f) + f(items[k])
  {
    assert (keys + [k])[..|keys|] == keys;
    SumSeqConcat(ValuesOf(keys, items), [items[k]], f);
  }

  /** Overwriting the value of one listed key replaces its contribution, once
      for every time the key is listed. */
  lemma {:induction false} SumOverUpdate<K, V>(keys: seq<K>, items: map<K, V>, k: K, v: V, f: V -> int)
    requires forall x | x in keys :: x in items
    requires Distinct(keys) && k in keys
    ensures SumOver(keys, items[k := v], f) == SumOver(keys, items, f) - f(items[k]) + f(v)
  {
    var n := |keys|;
    var init := keys[..n - 1];
    if keys[n - 1] == k {
      assert k !in init by {
        forall i | 0 <= i < |init| ensures init[i] != k {
          assert keys[i] != keys[n - 1];
        }
      }
      SumOverUnchanged(init, items, k, v, f);
    } else {
      assert k in init by {
        var i :| 0 <= i < n && keys[i] == k;
        assert i < n - 1 && init[i] == k;
      }
      assert Distinct(init) by {
        forall i, j | 0 <= i < j < |init| ensures init[i] != init[j] {
          assert init[i] == keys[i] && init[j] == keys[j];
        }
      }
      SumOverUpdate(init, items, k, v, f);
    }
  }

  /** Overwriting a key that is not listed does not change the sum. */
  lemma {:induction false} SumOverUnchanged<K, V>(keys: seq<K>, items: map<K, V>, k: K, v: V, f: V -> int)
    requires forall x | x in keys :: x in items
    requires k !in keys
    ensures SumOver(keys, items[k := v], f) == SumOver(keys, items, f)
  {
    if keys != [] {
      SumOverUnchanged(keys[..|keys| - 1], items, k, v, f);
    }
  }

  /** A sum of non-negative terms is non-negative. */
  lemma {:induction false} SumOverNonNegative<K, V>(keys: seq<K>, items: map<K, V>, f: V -> int)
    requires forall x | x in keys :: x in items
    requires forall x | x in keys :: f(items[x]) >= 0
    ensures SumOver(keys, items, f) >= 0
  {
    if keys != [] {
      SumOverNonNegative(keys[..|keys| - 1], items, f);
    }
  }

  /** The set of the elements of `s`. */
  ghost function Elements<T>(s: seq<T>): set<T> {
    set x | x in s
  }

  /** The elements of a non-empty sequence are those of its prefix and its last one. */
  lemma ElementsOfLast<T>(s: seq<T>)
    requires s != []
    ensures Elements(s) == Elements(s[..|s| - 1]) + {s[|s| - 1]}
  {
    assert s == s[..|s| - 1] + [s[|s| - 1]];
  }

  /** The elements of a sequence without repetition have as many distinct
      values as the sequence is long. */
  lemma {:induction false} DistinctCardinality<T>(s: seq<T>)
    requires Distinct(s)
    ensures |Elements(s)| == |s|
  {
    if s != [] {
      var init := s[..|s| - 1];
      var last := s[|s| - 1];
      assert Distinct(init) by {
        forall i, j | 0 <= i < j < |init| ensures init[i] != init[j] {
          assert init[i] == s[i] && init[j] == s[j];
        }
      }
      DistinctCardinality(init);
      assert last !in init by {
        forall i | 0 <= i < |init| ensures init[i] != last {
          assert init[i] == s[i];
        }
      }
      assert Elements(s) == Elements(init) + {last} by {
        assert s == init + [last];
      }
    }
  }
}
