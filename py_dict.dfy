/**
  A Python `dict` as the report uses it: an insertion-ordered sequence of
  (key, value) pairs. Assigning to a key that is present replaces its value
  where it stands; assigning to a new key appends the pair at the end.
  Iteration (`.items()`) visits the pairs in this order.

  The functions carry no quantified contracts, so that unfolding them stays
  cheap; what they mean is stated by the lemmas below them.
 */
module PyDict {
  import opened Results

  type Dict<K, V> = seq<(K, V)>

  /** The keys of `d`, in iteration order. */
  function Keys<K, V>(d: Dict<K, V>): seq<K>
  {
    if d == [] then [] else [d[0].0] + Keys(d[1..])
  }

  /** `d[k]` when `k` is present, `None` where Python raises KeyError. */
  function Get<K(==), V>(d: Dict<K, V>, k: K): Option<V>
  {
    if d == [] then None
    else if d[0].0 == k then Some(d[0].1)
    else Get(d[1..], k)
  }

  /** `d[k] = v`. */
  function Set<K(==), V>(d: Dict<K, V>, k: K, v: V): Dict<K, V>
  {
    if d == [] then [(k, v)]
    else if d[0].0 == k then [(k, v)] + d[1..]
    else [d[0]] + Set(d[1..], k, v)
  }

  /** The i-th key is the key of the i-th pair. */
  lemma {:induction false} KeysAt<K, V>(d: Dict<K, V>, i: nat)
    requires i < |d|
    ensures |Keys(d)| == |d| && Keys(d)[i] == d[i].0
  {
    if i > 0 {
      KeysAt(d[1..], i - 1);
    } else if |d| > 1 {
      KeysAt(d[1..], 0);
    }
  }

  /** A key reads a value exactly when it is one of the dict's keys, and the value read sits beside it. */
  lemma {:induction false} GetFindsKey<K, V>(d: Dict<K, V>, k: K)
    ensures Get(d, k).Some? <==> k in Keys(d)
    ensures Get(d, k).Some? ==> exists i :: 0 <= i < |d| && d[i] == (k, Get(d, k).value)
  {
    if d != [] {
      GetFindsKey(d[1..], k);
      if Get(d, k).Some? && d[0].0 != k {
        var i :| 0 <= i < |d[1..]| && d[1..][i] == (k, Get(d, k).value);
        assert d[i + 1] == (k, Get(d, k).value);
      }
    }
  }

  /** Assigning to a present key keeps the key order; assigning to a new key appends. */
  lemma {:induction false} SetShape<K, V>(d: Dict<K, V>, k: K, v: V)
    ensures k in Keys(d) ==> Keys(Set(d, k, v)) == Keys(d)
    ensures k !in Keys(d) ==> Set(d, k, v) == d + [(k, v)]
  {
    if d != [] && d[0].0 != k {
      SetShape(d[1..], k, v);
      assert d == [d[0]] + d[1..];
    }
  }

  /** After `d[k] = v`, reading `k` gives `v` and reading any other key gives what it gave before. */
  lemma {:induction false} GetAfterSet<K, V>(d: Dict<K, V>, k: K, v: V, k': K)
    ensures Get(Set(d, k, v), k') == if k' == k then Some(v) else Get(d, k')
  {
    if d != [] && d[0].0 != k {
      GetAfterSet(d[1..], k, v, k');
    }
  }

  /** After `d[k] = v` the keys are the old keys and `k`. */
  lemma {:induction false} KeysAfterSet<K, V>(d: Dict<K, V>, k: K, v: V, k': K)
    ensures k' in Keys(Set(d, k, v)) <==> k' in Keys(d) || k' == k
  {
    if d != [] && d[0].0 != k {
      KeysAfterSet(d[1..], k, v, k');
    }
  }
}
