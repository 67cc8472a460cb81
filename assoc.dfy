/**
 * Ordered dictionaries as PHP arrays keep them: entries in insertion order,
 * at most one entry per key. `Put` is `$a[$k] = $v` (an existing key keeps its
 * position, a new key goes to the end), `Remove` is `unset($a[$k])`, and
 * `Merge` is `array_merge` for string keys (a later value wins, the position
 * of a key already present is kept).
 */
module Assoc {
  import opened Wrappers

  type Assoc<K, V> = seq<(K, V)>

  function Keys<K(==), V>(a: Assoc<K, V>): set<K>
  {
    if a == [] then {} else {a[0].0} + Keys(a[1..])
  }

  /** Every key occurs at most once, as in a PHP array. */
  predicate UniqueKeys<K(==), V>(a: Assoc<K, V>)
  {
    a == [] || (a[0].0 !in Keys(a[1..]) && UniqueKeys(a[1..]))
  }

  /** `$a[$k]` when `array_key_exists($k, $a)`. */
  function Find<K(==), V>(a: Assoc<K, V>, k: K): (r: Option<V>)
    ensures r.Some? <==> k in Keys(a)
  {
    if a == [] then None
    else if a[0].0 == k then Some(a[0].1)
    else Find(a[1..], k)
  }

  /** `$a[$k] = $v`. */
  function Put<K(==), V>(a: Assoc<K, V>, k: K, v: V): (r: Assoc<K, V>)
    ensures Keys(r) == Keys(a) + {k}
    ensures |r| == if k in Keys(a) then |a| else |a| + 1
    ensures forall i | 0 <= i < |a| :: r[i].0 == a[i].0
    ensures k !in Keys(a) ==> r == a + [(k, v)]
  {
    if a == [] then [(k, v)]
    else if a[0].0 == k then [(k, v)] + a[1..]
    else [a[0]] + Put(a[1..], k, v)
  }

  /** `unset($a[$k])`. */
  function Remove<K(==), V>(a: Assoc<K, V>, k: K): (r: Assoc<K, V>)
    ensures Keys(r) == Keys(a) - {k}
    ensures |r| <= |a|
  {
    if a == [] then []
    else if a[0].0 == k then Remove(a[1..], k)
    else [a[0]] + Remove(a[1..], k)
  }

  /** `array_merge($a, $b)` for string keys: `$b`'s entries put into `$a` in order. */
  function Merge<K(==), V>(a: Assoc<K, V>, b: Assoc<K, V>): (r: Assoc<K, V>)
    ensures Keys(r) == Keys(a) + Keys(b)
    ensures |a| <= |r| && forall i | 0 <= i < |a| :: r[i].0 == a[i].0
    decreases |b|
  {
    if b == [] then a else Merge(Put(a, b[0].0, b[0].1), b[1..])
  }

  /** The unordered view of an ordered dictionary. */
  function ToMap<K(==), V>(a: Assoc<K, V>): (m: map<K, V>)
    ensures m.Keys == Keys(a)
    ensures forall k | k in m :: Find(a, k) == Some(m[k])
  {
    map k | k in Keys(a) :: Find(a, k).value
  }

  lemma {:induction false} FindPut<K, V>(a: Assoc<K, V>, k: K, v: V, j: K)
    ensures Find(Put(a, k, v), j) == if j == k then Some(v) else Find(a, j)
  {
    if a != [] && a[0].0 != k {
      FindPut(a[1..], k, v, j);
      assert Put(a, k, v)[1..] == Put(a[1..], k, v);
    }
  }

  lemma {:induction false} UniquePut<K, V>(a: Assoc<K, V>, k: K, v: V)
    requires UniqueKeys(a)
    ensures UniqueKeys(Put(a, k, v))
  {
    if a != [] && a[0].0 != k {
      UniquePut(a[1..], k, v);
      assert Put(a, k, v)[1..] == Put(a[1..], k, v);
    } else if a != [] {
      assert Put(a, k, v)[1..] == a[1..];
    }
  }

  lemma {:induction false} FindRemove<K, V>(a: Assoc<K, V>, k: K, j: K)
    ensures Find(Remove(a, k), j) == if j == k then None else Find(a, j)
  {
    if a != [] {
      FindRemove(a[1..], k, j);
      if a[0].0 != k {
        assert Remove(a, k)[1..] == Remove(a[1..], k);
      }
    }
  }

  lemma {:induction false} UniqueRemove<K, V>(a: Assoc<K, V>, k: K)
    requires UniqueKeys(a)
    ensures UniqueKeys(Remove(a, k))
  {
    if a != [] {
      UniqueRemove(a[1..], k);
      if a[0].0 != k {
        assert Remove(a, k)[1..] == Remove(a[1..], k);
      }
    }
  }

  lemma {:induction false} KeysAppend<K, V>(a: Assoc<K, V>, e: (K, V))
    ensures Keys(a + [e]) == Keys(a) + {e.0}
  {
    if a != [] {
      assert (a + [e])[1..] == a[1..] + [e];
      KeysAppend(a[1..], e);
    }
  }

  /** Removing from a list extended at the end only looks at the new entry last. */
  lemma {:induction false} RemoveAppend<K, V>(a: Assoc<K, V>, e: (K, V), k: K)
    ensures Remove(a + [e], k) == Remove(a, k) + (if e.0 == k then [] else [e])
  {
    if a != [] {
      assert (a + [e])[1..] == a[1..] + [e];
      RemoveAppend(a[1..], e, k);
    }
  }

  /** A key never present is removed without effect. */
  lemma {:induction false} RemoveAbsent<K, V>(a: Assoc<K, V>, k: K)
    requires k !in Keys(a)
    ensures Remove(a, k) == a
  {
    if a != [] {
      RemoveAbsent(a[1..], k);
    }
  }

  lemma {:induction false} UniqueMerge<K, V>(a: Assoc<K, V>, b: Assoc<K, V>)
    requires UniqueKeys(a)
    ensures UniqueKeys(Merge(a, b))
    decreases |b|
  {
    if b != [] {
      UniquePut(a, b[0].0, b[0].1);
      UniqueMerge(Put(a, b[0].0, b[0].1), b[1..]);
    }
  }

  /** In `array_merge($a, $b)` every key of `$b` takes `$b`'s value; the other keys keep `$a`'s. */
  lemma {:induction false} FindMerge<K, V>(a: Assoc<K, V>, b: Assoc<K, V>, k: K)
    requires UniqueKeys(b)
    ensures Find(Merge(a, b), k) == if k in Keys(b) then Find(b, k) else Find(a, k)
    decreases |b|
  {
    if b != [] {
      FindMerge(Put(a, b[0].0, b[0].1), b[1..], k);
      FindPut(a, b[0].0, b[0].1, k);
    }
  }

  /** Seen as maps, `array_merge` with string keys is map override (right-hand side wins). */
  lemma MergeIsOverride<K, V>(a: Assoc<K, V>, b: Assoc<K, V>)
    requires UniqueKeys(b)
    ensures ToMap(Merge(a, b)) == ToMap(a) + ToMap(b)
  {
    var l, r := ToMap(Merge(a, b)), ToMap(a) + ToMap(b);
    forall k | k in l
      ensures k in r && l[k] == r[k]
    {
      FindMerge(a, b, k);
    }
    assert l.Keys == r.Keys;
  }

  /** Merging entries whose keys are all new appends them, in order. */
  lemma {:induction false} MergeFresh<K, V>(a: Assoc<K, V>, b: Assoc<K, V>)
    requires UniqueKeys(b) && Keys(a) !! Keys(b)
    ensures Merge(a, b) == a + b
    decreases |b|
  {
    if b != [] {
      var a' := Put(a, b[0].0, b[0].1);
      assert a' == a + [b[0]];
      KeysAppend(a, b[0]);
      MergeFresh(a', b[1..]);
      assert a' + b[1..] == a + b;
    }
  }

  /** Every entry's key is a key of the dictionary. */
  lemma {:induction false} KeyAt<K, V>(a: Assoc<K, V>, i: nat)
    requires i < |a|
    ensures a[i].0 in Keys(a)
  {
    if i > 0 {
      KeyAt(a[1..], i - 1);
    }
  }

  /** In a dictionary with distinct keys, no entry's key occurs before it. */
  lemma {:induction false} UniqueNotBefore<K, V>(a: Assoc<K, V>, i: nat)
    requires UniqueKeys(a) && i < |a|
    ensures a[i].0 !in Keys(a[..i])
  {
    if i > 0 {
      UniqueNotBefore(a[1..], i - 1);
      assert a[..i][1..] == a[1..][..i - 1];
      assert a[..i][0] == a[0];
      KeyAt(a[1..], i - 1);
    }
  }
}
