/** Python dictionaries as the model sees them: a sequence of `(key, value)`
    entries in insertion order, with no key twice. Assigning to a present key
    keeps its position; assigning to a new key appends it. */
module OrderedMaps {
  import opened Values

  /** No key occurs twice. */
  ghost predicate UniqueKeys<V>(m: seq<(string, V)>) {
    m == [] || (m[0].0 !in Keys(m[1..]) && UniqueKeys(m[1..]))
  }

  type Dict<V> = m: seq<(string, V)> | UniqueKeys(m) witness []

  /** The keys in iteration order. */
  function Keys<V>(m: seq<(string, V)>): (ks: seq<string>)
    ensures |ks| == |m|
  {
    if m == [] then [] else [m[0].0] + Keys(m[1..])
  }

  /** `{k: v}`. */
  function Singleton<V>(k: string, v: V): (r: Dict<V>)
    ensures Keys(r) == [k] && Lookup(r, k) == Some(v)
  {
    var r := [(k, v)];
    assert r[1..] == [] && Keys(r[1..]) == [] && UniqueKeys(r[1..]);
    r
  }

  /** `m.get(k)`: the value of the entry whose key is `k`. */
  function Lookup<V>(m: Dict<V>, k: string): (r: Option<V>)
    ensures r.None? <==> k !in Keys(m)
  {
    if m == [] then None
    else if m[0].0 == k then Some(m[0].1)
    else Lookup(m[1..], k)
  }

  /** `m[k] = v`. */
  function Put<V>(m: Dict<V>, k: string, v: V): (r: Dict<V>)
    ensures Lookup(r, k) == Some(v)
    ensures forall k' :: k' != k ==> Lookup(r, k') == Lookup(m, k')
    ensures Keys(r) == if k in Keys(m) then Keys(m) else Keys(m) + [k]
  {
    if m == [] then
      assert [(k, v)][1..] == [];
      [(k, v)]
    else if m[0].0 == k then
      PutFirst(m, v);
      [(k, v)] + m[1..]
    else
      var rest := Put(m[1..], k, v);
      PutCons(m, rest, k, v);
      [m[0]] + rest
  }

  /** Assigning to the first key replaces its entry where it stands. */
  lemma PutFirst<V>(m: Dict<V>, v: V)
    requires m != []
    ensures UniqueKeys([(m[0].0, v)] + m[1..])
    ensures Keys([(m[0].0, v)] + m[1..]) == Keys(m)
    ensures Lookup([(m[0].0, v)] + m[1..], m[0].0) == Some(v)
    ensures forall k' :: k' != m[0].0 ==> Lookup([(m[0].0, v)] + m[1..], k') == Lookup(m, k')
  {
    var r := [(m[0].0, v)] + m[1..];
    assert r[1..] == m[1..];
  }

  /** The recursive step of Put: an entry whose key differs from `k` stays in
      front of the updated remainder. */
  lemma PutCons<V>(m: Dict<V>, rest: Dict<V>, k: string, v: V)
    requires m != [] && m[0].0 != k
    requires Keys(rest) == if k in Keys(m[1..]) then Keys(m[1..]) else Keys(m[1..]) + [k]
    requires Lookup(rest, k) == Some(v)
    requires forall k' :: k' != k ==> Lookup(rest, k') == Lookup(m[1..], k')
    ensures UniqueKeys([m[0]] + rest)
    ensures Keys([m[0]] + rest) == if k in Keys(m) then Keys(m) else Keys(m) + [k]
    ensures Lookup([m[0]] + rest, k) == Some(v)
    ensures forall k' :: k' != k ==> Lookup([m[0]] + rest, k') == Lookup(m, k')
  {
    var r := [m[0]] + rest;
    assert r[1..] == rest;
    assert Keys(r) == [m[0].0] + Keys(rest);
    assert Keys(m) == [m[0].0] + Keys(m[1..]);
    assert m[0].0 !in Keys(rest);
    forall k' | k' != k ensures Lookup(r, k') == Lookup(m, k') {
      if k' != m[0].0 {
        assert Lookup(r, k') == Lookup(rest, k');
      }
    }
  }

  /** The keys of `ns` that are not among `ks`, in the order of `ns`. */
  function NewKeys(ns: seq<string>, ks: seq<string>): (r: seq<string>)
    ensures forall x :: x in r <==> x in ns && x !in ks
  {
    if ns == [] then []
    else if ns[0] in ks then NewKeys(ns[1..], ks)
    else [ns[0]] + NewKeys(ns[1..], ks)
  }

  lemma {:induction false} NewKeysIgnoresAbsent(ns: seq<string>, ks: seq<string>, x: string)
    requires x !in ns
    ensures NewKeys(ns, ks + [x]) == NewKeys(ns, ks)
  {
    if ns != [] {
      NewKeysIgnoresAbsent(ns[1..], ks, x);
    }
  }

  /** `m.update(n)`: the entries of `n` are assigned into `m` one after the
      other, so `n` wins on shared keys and every other key keeps its value. */
  function Update<V>(m: Dict<V>, n: Dict<V>): (r: Dict<V>)
    ensures forall k :: Lookup(r, k) == if k in Keys(n) then Lookup(n, k) else Lookup(m, k)
    decreases |n|
  {
    if n == [] then m
    else
      var r := Update(Put(m, n[0].0, n[0].1), n[1..]);
      assert forall k :: Lookup(r, k) == if k in Keys(n) then Lookup(n, k) else Lookup(m, k) by {
        forall k ensures Lookup(r, k) == if k in Keys(n) then Lookup(n, k) else Lookup(m, k) {
          UpdateConsAt(m, n, r, k);
        }
      }
      r
  }

  /** The keys of `m` keep their places in `m.update(n)` and the keys new to
      `m` follow in the order of `n`. */
  lemma {:induction false} UpdateKeys<V>(m: Dict<V>, n: Dict<V>)
    ensures Keys(Update(m, n)) == Keys(m) + NewKeys(Keys(n), Keys(m))
    decreases |n|
  {
    if n != [] {
      UpdateKeys(Put(m, n[0].0, n[0].1), n[1..]);
      UpdateConsKeys(m, n);
    }
  }

  lemma UpdateConsAt<V>(m: Dict<V>, n: Dict<V>, r: Dict<V>, k: string)
    requires n != []
    requires Lookup(r, k) ==
      if k in Keys(n[1..]) then Lookup(n[1..], k) else Lookup(Put(m, n[0].0, n[0].1), k)
    ensures Lookup(r, k) == if k in Keys(n) then Lookup(n, k) else Lookup(m, k)
  {
    assert Keys(n) == [n[0].0] + Keys(n[1..]);
    if k != n[0].0 {
      assert Lookup(n, k) == Lookup(n[1..], k);
    }
  }

  lemma UpdateConsKeys<V>(m: Dict<V>, n: Dict<V>)
    requires n != []
    ensures Keys(Put(m, n[0].0, n[0].1)) + NewKeys(Keys(n[1..]), Keys(Put(m, n[0].0, n[0].1)))
         == Keys(m) + NewKeys(Keys(n), Keys(m))
  {
    var k0 := n[0].0;
    var ns, ks := Keys(n), Keys(m);
    assert ns[0] == k0 && ns[1..] == Keys(n[1..]);
    assert k0 !in ns[1..];
    NewKeysIgnoresAbsent(ns[1..], ks, k0);
    if k0 !in ks {
      calc {
        NewKeys(ns, ks);
        [k0] + NewKeys(ns[1..], ks);
        [k0] + NewKeys(ns[1..], ks + [k0]);
      }
      assert ks + [k0] + NewKeys(ns[1..], ks + [k0]) == ks + ([k0] + NewKeys(ns[1..], ks + [k0]));
    }
  }
}
