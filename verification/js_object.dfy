/** An optional value: `undefined` (absent) or a present value. */
module Options {
  datatype Option<+T> = None | Some(value: T)
}

/**
 * A JavaScript plain object used as a dictionary: its own string keys in
 * insertion order, each with its value. `obj[k] = v` keeps the position of an
 * existing key and appends a new one at the end (integer-like keys, which
 * JavaScript enumerates first, are not distinguished here).
 */
module JsObject {
  import opened Options

  type Dict<V> = seq<(string, V)>

  /** `Object.keys(d)`: the keys in enumeration order. */
  function Keys<V>(d: Dict<V>): (ks: seq<string>)
    ensures |ks| == |d|
    ensures forall i :: 0 <= i < |d| ==> ks[i] == d[i].0
  {
    if d == [] then [] else [d[0].0] + Keys(d[1..])
  }

  /** Every key appears once, as in any object built by JSON.parse or by assignments. */
  ghost predicate DistinctKeys<V>(d: Dict<V>) {
    forall i, j :: 0 <= i < j < |d| ==> d[i].0 != d[j].0
  }

  /** True when `k` is an own key of `d`. */
  predicate HasKey<V>(d: Dict<V>, k: string) {
    k in Keys(d)
  }

  /** `d[k]`: the value stored under `k`, or `undefined`. */
  function Get<V>(d: Dict<V>, k: string): (r: Option<V>)
    ensures r.Some? <==> HasKey(d, k)
    ensures r.Some? ==> (k, r.value) in d
  {
    if d == [] then None
    else if d[0].0 == k then Some(d[0].1)
    else Get(d[1..], k)
  }

  /** The first key of a non-empty object is found at its head. */
  lemma GetHead<V>(k: string, v: V, rest: Dict<V>)
    ensures Get([(k, v)] + rest, k) == Some(v)
  {
  }

  /** Any other key is looked up in the rest. */
  lemma GetSkip<V>(k: string, v: V, rest: Dict<V>, key: string)
    requires k != key
    ensures Get([(k, v)] + rest, key) == Get(rest, key)
  {
    assert ([(k, v)] + rest)[1..] == rest;
  }

  /** The keys of a four-key object literal, in writing order. */
  lemma KeysFour<V>(k1: string, v1: V, k2: string, v2: V, k3: string, v3: V, k4: string, v4: V)
    ensures Keys([(k1, v1), (k2, v2), (k3, v3), (k4, v4)]) == [k1, k2, k3, k4]
  {
  }

  /** A four-key object literal has no other own key. */
  lemma AbsentFromFour<V>(k1: string, v1: V, k2: string, v2: V, k3: string, v3: V, k4: string, v4: V, k: string)
    requires k != k1 && k != k2 && k != k3 && k != k4
    ensures !HasKey([(k1, v1), (k2, v2), (k3, v3), (k4, v4)], k)
  {
    KeysFour(k1, v1, k2, v2, k3, v3, k4, v4);
  }

  /** Reading a four-key object literal whose keys are distinct: each key reads its own value. */
  lemma GetFour<V>(k1: string, v1: V, k2: string, v2: V, k3: string, v3: V, k4: string, v4: V)
    requires k1 != k2 && k1 != k3 && k1 != k4 && k2 != k3 && k2 != k4 && k3 != k4
    ensures var d := [(k1, v1), (k2, v2), (k3, v3), (k4, v4)];
            Get(d, k1) == Some(v1) && Get(d, k2) == Some(v2) && Get(d, k3) == Some(v3) && Get(d, k4) == Some(v4)
  {
    var d4: Dict<V> := [(k4, v4)];
    var d3 := [(k3, v3)] + d4;
    var d2 := [(k2, v2)] + d3;
    assert [(k1, v1), (k2, v2), (k3, v3), (k4, v4)] == [(k1, v1)] + d2;
    assert d4 == [(k4, v4)] + [];
    GetHead(k1, v1, d2);
    GetSkip(k1, v1, d2, k2); GetHead(k2, v2, d3);
    GetSkip(k1, v1, d2, k3); GetSkip(k2, v2, d3, k3); GetHead(k3, v3, d4);
    GetSkip(k1, v1, d2, k4); GetSkip(k2, v2, d3, k4); GetSkip(k3, v3, d4, k4); GetHead(k4, v4, []);
  }

  /**
   * `d[k] = v`: overwrites the value of an existing key in place, or appends
   * the new key at the end.
   */
  function Put<V>(d: Dict<V>, k: string, v: V): (r: Dict<V>)
    ensures Get(r, k) == Some(v)
    ensures forall k' :: k' != k ==> Get(r, k') == Get(d, k')
  {
    if d == [] then [(k, v)]
    else if d[0].0 == k then [(k, v)] + d[1..]
    else [d[0]] + Put(d[1..], k, v)
  }

  /** `obj[k] = v` keeps the key order, appending `k` only when it is new. */
  lemma {:induction false} PutKeys<V>(d: Dict<V>, k: string, v: V)
    ensures Keys(Put(d, k, v)) == if HasKey(d, k) then Keys(d) else Keys(d) + [k]
  {
    if d != [] && d[0].0 != k {
      PutKeys(d[1..], k, v);
      assert Keys(Put(d, k, v)) == [d[0].0] + Keys(Put(d[1..], k, v));
    }
  }

  /** `obj[k] = v` never creates a second copy of a key. */
  lemma PutDistinct<V>(d: Dict<V>, k: string, v: V)
    requires DistinctKeys(d)
    ensures DistinctKeys(Put(d, k, v))
  {
    var r := Put(d, k, v);
    var ks := Keys(d);
    assert Keys(r) == if HasKey(d, k) then ks else ks + [k] by {
      PutKeys(d, k, v);
    }
    forall i, j | 0 <= i < j < |r| ensures r[i].0 != r[j].0 {
      assert r[i].0 == Keys(r)[i] && r[j].0 == Keys(r)[j];
      if j < |d| {
        assert Keys(r)[i] == ks[i] && Keys(r)[j] == ks[j];
      } else {
        assert !HasKey(d, k) && Keys(r)[i] == ks[i] && Keys(r)[j] == k;
        KeysIndex(d, i);
      }
    }
  }

  /** `obj[k] = v` adds no pair other than `(k, v)`. */
  lemma {:induction false} PutElements<V>(d: Dict<V>, k: string, v: V, e: (string, V))
    requires e in Put(d, k, v)
    ensures e == (k, v) || e in d
  {
    if d != [] && d[0].0 != k && e != d[0] {
      PutElements(d[1..], k, v, e);
    }
  }

  /** Assigning a key the object does not have appends the pair at the end. */
  lemma {:induction false} PutFresh<V>(d: Dict<V>, k: string, v: V)
    requires !HasKey(d, k)
    ensures Put(d, k, v) == d + [(k, v)]
  {
    if d != [] {
      assert Keys(d) == [d[0].0] + Keys(d[1..]);
      PutFresh(d[1..], k, v);
    }
  }

  /** The keys of a concatenation are the concatenated keys. */
  lemma {:induction false} KeysAppend<V>(a: Dict<V>, b: Dict<V>)
    ensures Keys(a + b) == Keys(a) + Keys(b)
  {
    if a != [] {
      assert (a + b)[1..] == a[1..] + b;
      KeysAppend(a[1..], b);
    }
  }

  /** The `j`-th key of `d` is the `j`-th element of `Keys(d)`, hence a member of it. */
  lemma KeysIndex<V>(d: Dict<V>, j: nat)
    requires j < |d|
    ensures d[j].0 in Keys(d) && Keys(d)[j] == d[j].0
  {
  }

  /** With distinct keys, every stored pair is what `Get` finds for its key. */
  lemma {:induction false} GetAt<V>(d: Dict<V>, i: nat)
    requires DistinctKeys(d) && i < |d|
    ensures Get(d, d[i].0) == Some(d[i].1)
  {
    if i > 0 {
      assert d[0].0 != d[i].0;
      assert DistinctKeys(d[1..]) by {
        forall p, q | 0 <= p < q < |d[1..]| ensures d[1..][p].0 != d[1..][q].0 {
          assert d[1..][p] == d[p + 1] && d[1..][q] == d[q + 1];
        }
      }
      GetAt(d[1..], i - 1);
    }
  }

  /** With distinct keys, `Get(d, k) == Some(v)` holds exactly when the pair `(k, v)` is stored. */
  lemma GetIffStored<V>(d: Dict<V>, k: string, v: V)
    requires DistinctKeys(d)
    ensures Get(d, k) == Some(v) <==> (k, v) in d
  {
    if (k, v) in d {
      var i :| 0 <= i < |d| && d[i] == (k, v);
      GetAt(d, i);
    }
  }

  /** Reading a dictionary extended by one pair at the end, when its keys stay distinct. */
  lemma {:induction false} GetSnoc<V>(d: Dict<V>, k: string, v: V, k': string)
    requires DistinctKeys(d + [(k, v)])
    ensures Get(d + [(k, v)], k') == if k' == k then Some(v) else Get(d, k')
  {
    var e := d + [(k, v)];
    if k' == k {
      GetAt(e, |d|);
    } else if d != [] {
      assert e[1..] == d[1..] + [(k, v)];
      assert DistinctKeys(e[1..]) by {
        forall p, q | 0 <= p < q < |e[1..]| ensures e[1..][p].0 != e[1..][q].0 {
          assert e[1..][p] == e[p + 1] && e[1..][q] == e[q + 1];
        }
      }
      GetSnoc(d[1..], k, v, k');
    }
  }

  /**
   * Two dictionaries with distinct keys holding the same pairs, in whatever
   * order, read the same under every key.
   */
  lemma SameEntriesSameReads<V>(d1: Dict<V>, d2: Dict<V>, k: string)
    requires DistinctKeys(d1) && DistinctKeys(d2) && multiset(d1) == multiset(d2)
    ensures Get(d1, k) == Get(d2, k)
  {
    var r1, r2 := Get(d1, k), Get(d2, k);
    if r1.Some? {
      GetIffStored(d1, k, r1.value);
      assert (k, r1.value) in multiset(d2);
      GetIffStored(d2, k, r1.value);
    } else if r2.Some? {
      GetIffStored(d2, k, r2.value);
      assert (k, r2.value) in multiset(d1);
      GetIffStored(d1, k, r2.value);
    }
  }

  /** In a dictionary with distinct keys, the last key is not among the earlier ones. */
  lemma LastKeyFresh<V>(d: Dict<V>)
    requires DistinctKeys(d) && d != []
    ensures !HasKey(d[..|d| - 1], d[|d| - 1].0)
  {
    var init := d[..|d| - 1];
    forall j | 0 <= j < |init| ensures Keys(init)[j] != d[|d| - 1].0 {
      assert init[j] == d[j];
    }
  }

  /** A prefix of a dictionary with distinct keys has distinct keys. */
  lemma DistinctPrefix<V>(d: Dict<V>, n: nat)
    requires DistinctKeys(d) && n <= |d|
    ensures DistinctKeys(d[..n])
  {
  }
}
