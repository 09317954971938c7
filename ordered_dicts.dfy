/** Python dictionaries as the featurizer uses them: insertion-ordered, so a
    dictionary is the list of its (key, value) entries in insertion order, and
    iterating over it, filtering it or concatenating its values follows that
    order. `ToMap` forgets the order and is the reference meaning of each
    operation. */
module OrderedDicts {

  type Dict<K, V> = seq<(K, V)>

  /** The keys in iteration order. */
  function Keys<K(!new), V>(d: Dict<K, V>): (ks: seq<K>)
    ensures |ks| == |d| && forall j :: 0 <= j < |d| ==> ks[j] == d[j].0
  {
    seq(|d|, j requires 0 <= j < |d| => d[j].0)
  }

  lemma KeysAppend<K(!new), V>(a: Dict<K, V>, b: Dict<K, V>)
    ensures Keys(a + b) == Keys(a) + Keys(b)
  {
    assert forall j :: 0 <= j < |a + b| ==> Keys(a + b)[j] == (Keys(a) + Keys(b))[j];
  }

  lemma AppendAssoc<T>(a: seq<T>, b: seq<T>, c: seq<T>)
    ensures a + b + c == a + (b + c)
  {
  }

  /** What a real dictionary always satisfies: no key twice. */
  ghost predicate DistinctKeys<K(!new), V>(d: Dict<K, V>)
  {
    forall j, l :: 0 <= j < l < |d| ==> d[j].0 != d[l].0
  }

  /** The dictionary as a map: a later entry for the same key wins, as in
      `dict(pairs)`. */
  ghost function ToMap<K(!new), V>(d: Dict<K, V>): (m: map<K, V>)
    ensures forall k :: k in m <==> k in Keys(d)
  {
    if d == [] then map[]
    else
      assert Keys(d) == [d[0].0] + Keys(d[1..]);
      map[d[0].0 := d[0].1] + ToMap(d[1..])
  }

  /** Position of the entry for `k`. */
  function IndexOf<K(==,!new), V>(d: Dict<K, V>, k: K): (j: nat)
    requires k in Keys(d)
    ensures j < |d| && d[j].0 == k
    ensures forall l :: 0 <= l < j ==> d[l].0 != k
  {
    if d[0].0 == k then 0
    else
      assert Keys(d[1..]) == Keys(d)[1..];
      1 + IndexOf(d[1..], k)
  }

  lemma {:induction false} ToMapSnoc<K(!new), V>(d: Dict<K, V>, k: K, v: V)
    ensures ToMap(d + [(k, v)]) == ToMap(d)[k := v]
    decreases |d|
  {
    if d == [] {
    } else {
      assert (d + [(k, v)])[1..] == d[1..] + [(k, v)];
      ToMapSnoc(d[1..], k, v);
    }
  }

  /** Map facts used below: a union takes its right operand's value. */
  lemma UpdateUnion<K(!new), V>(m: map<K, V>, n: map<K, V>, k: K, v: V)
    ensures m[k := v] + n == m + (map[k := v] + n)
    ensures m + n[k := v] == (m + n)[k := v]
    ensures k !in n ==> (m + n)[k := v] == m[k := v] + n
  {
    assert forall x :: x in m[k := v] + n <==> x in m + (map[k := v] + n);
    assert forall x | x in m[k := v] + n :: (m[k := v] + n)[x] == (m + (map[k := v] + n))[x];
    var a, b := m + n[k := v], (m + n)[k := v];
    assert forall x | x in a :: a[x] == b[x];
    if k !in n {
      var c := m[k := v] + n;
      assert forall x | x in b :: b[x] == c[x];
    }
  }

  lemma {:induction false} ToMapReplace<K(!new), V>(d: Dict<K, V>, j: nat, v: V)
    requires DistinctKeys(d) && j < |d|
    ensures ToMap(d[j := (d[j].0, v)]) == ToMap(d)[d[j].0 := v]
    decreases |d|
  {
    var k := d[j].0;
    var d' := d[j := (k, v)];
    if j == 0 {
      assert k !in Keys(d[1..]);
      assert d'[1..] == d[1..];
      UpdateUnion(map[k := d[0].1], ToMap(d[1..]), k, v);
      assert map[k := d[0].1][k := v] == map[k := v];
    } else {
      assert d'[1..] == d[1..][j - 1 := (k, v)];
      assert d'[0] == d[0];
      ToMapReplace(d[1..], j - 1, v);
      UpdateUnion(map[d[0].0 := d[0].1], ToMap(d[1..]), k, v);
    }
  }

  /** `d[k] = v`: an existing key keeps its place and takes the new value, a new
      key goes last. */
  function Assign<K(==,!new), V>(d: Dict<K, V>, k: K, v: V): (r: Dict<K, V>)
    ensures Keys(r) == if k in Keys(d) then Keys(d) else Keys(d) + [k]
    ensures k !in Keys(d) ==> r == d + [(k, v)]
    ensures DistinctKeys(d) ==> DistinctKeys(r) && ToMap(r) == ToMap(d)[k := v]
  {
    if k in Keys(d) then
      var j := IndexOf(d, k);
      var r := d[j := (k, v)];
      assert Keys(r) == Keys(d);
      assert DistinctKeys(d) ==> ToMap(r) == ToMap(d)[k := v] by {
        if DistinctKeys(d) { ToMapReplace(d, j, v); }
      }
      r
    else
      KeysAppend(d, [(k, v)]);
      ToMapSnoc(d, k, v);
      d + [(k, v)]
  }

  /** `{**a, **b}`: `a`, then each entry of `b` assigned in order. */
  function Merge<K(==,!new), V>(a: Dict<K, V>, b: Dict<K, V>): (r: Dict<K, V>)
    decreases |b|
  {
    if b == [] then a else Merge(Assign(a, b[0].0, b[0].1), b[1..])
  }

  /** Merging is the union of the two maps, the right one winning. */
  lemma {:induction false} MergeIsUnion<K(!new), V>(a: Dict<K, V>, b: Dict<K, V>)
    requires DistinctKeys(a)
    ensures DistinctKeys(Merge(a, b)) && ToMap(Merge(a, b)) == ToMap(a) + ToMap(b)
    decreases |b|
  {
    if b == [] {
      assert ToMap(a) + ToMap(b) == ToMap(a);
    } else {
      var a' := Assign(a, b[0].0, b[0].1);
      MergeIsUnion(a', b[1..]);
      assert ToMap(b) == map[b[0].0 := b[0].1] + ToMap(b[1..]);
      UpdateUnion(ToMap(a), ToMap(b[1..]), b[0].0, b[0].1);
    }
  }

  lemma DistinctTail<K(!new), V>(b: Dict<K, V>)
    requires DistinctKeys(b) && b != []
    ensures DistinctKeys(b[1..]) && b[0].0 !in Keys(b[1..])
  {
    var rest := b[1..];
    forall j, l | 0 <= j < l < |rest| ensures rest[j].0 != rest[l].0 {
      assert rest[j] == b[j + 1] && rest[l] == b[l + 1];
    }
    forall l | 0 <= l < |rest| ensures rest[l].0 != b[0].0 {
      assert rest[l] == b[l + 1];
    }
  }

  /** With no key in common, merging only appends: nothing is overwritten and
      the order of both is kept. */
  lemma {:induction false} MergeFresh<K(!new), V>(a: Dict<K, V>, b: Dict<K, V>)
    requires forall k | k in Keys(b) :: k !in Keys(a)
    requires DistinctKeys(b)
    ensures Merge(a, b) == a + b
    decreases |b|
  {
    if b != [] {
      var k0, rest := b[0].0, b[1..];
      assert b == [b[0]] + rest;
      assert k0 in Keys(b);
      var a' := Assign(a, k0, b[0].1);
      assert a' == a + [b[0]];
      KeysAppend(a, [b[0]]);
      DistinctTail(b);
      forall k | k in Keys(rest) ensures k !in Keys(a') {
        var l :| 0 <= l < |rest| && Keys(rest)[l] == k;
        assert Keys(b)[l + 1] == k;
      }
      MergeFresh(a', rest);
      AppendAssoc(a, [b[0]], rest);
    }
  }

  /** `np.concatenate(list(d.values()))`, for a dictionary of flat arrays. */
  function FlatValues<K(!new)>(d: Dict<K, seq<int>>): (s: seq<int>)
  {
    if d == [] then [] else d[0].1 + FlatValues(d[1..])
  }

  lemma {:induction false} FlatValuesAppend<K(!new)>(a: Dict<K, seq<int>>, b: Dict<K, seq<int>>)
    ensures FlatValues(a + b) == FlatValues(a) + FlatValues(b)
    decreases |a|
  {
    if a == [] {
      assert a + b == b;
    } else {
      assert (a + b)[0] == a[0] && (a + b)[1..] == a[1..] + b;
      FlatValuesAppend(a[1..], b);
      assert FlatValues(a + b) == a[0].1 + (FlatValues(a[1..]) + FlatValues(b));
    }
  }

  /** `np.concatenate(list_of_arrays)`. */
  function Flatten(ss: seq<seq<int>>): (s: seq<int>)
  {
    if ss == [] then [] else ss[0] + Flatten(ss[1..])
  }

  lemma {:induction false} FlattenAppend(a: seq<seq<int>>, b: seq<seq<int>>)
    ensures Flatten(a + b) == Flatten(a) + Flatten(b)
    decreases |a|
  {
    if a == [] {
      assert a + b == b;
    } else {
      assert (a + b)[0] == a[0] && (a + b)[1..] == a[1..] + b;
      FlattenAppend(a[1..], b);
      assert Flatten(a + b) == a[0] + (Flatten(a[1..]) + Flatten(b));
    }
  }
}
