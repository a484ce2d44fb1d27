/** PHP arrays with string keys: an ordered list of entries in insertion order.
    Reading a key finds its entry; writing a key overwrites the entry in place
    when the key is present and appends a new entry otherwise. */
module PhpArrays {
  import opened Wrappers

  type Key = string

  type Entries<V> = seq<(Key, V)>

  /** The keys in iteration (insertion) order. */
  function KeysOf<V>(a: Entries<V>): (ks: seq<Key>)
    ensures |ks| == |a|
    ensures forall i :: 0 <= i < |a| ==> ks[i] == a[i].0
  {
    if a == [] then [] else [a[0].0] + KeysOf(a[1..])
  }

  /** The invariant every PHP array keeps: no key occurs twice. */
  predicate DistinctKeys<V>(a: Entries<V>) {
    forall i, j :: 0 <= i < j < |a| ==> a[i].0 != a[j].0
  }

  /** `isset($a[$k]) ? $a[$k] : null`, with None for an absent key. */
  function Find<V>(a: Entries<V>, k: Key): (r: Option<V>)
    ensures r.Some? <==> k in KeysOf(a)
  {
    if a == [] then None
    else
      assert KeysOf(a) == [a[0].0] + KeysOf(a[1..]);
      if a[0].0 == k then Some(a[0].1)
      else
        assert forall i :: 0 < i < |a| ==> a[i] == a[1..][i - 1];
        Find(a[1..], k)
  }

  /** A value read from an array is the value of one of its entries. */
  lemma {:induction false} FindIsEntry<V>(a: Entries<V>, k: Key)
    requires Find(a, k).Some?
    ensures (k, Find(a, k).value) in a
  {
    if a[0].0 != k {
      FindIsEntry(a[1..], k);
    }
  }

  /** With distinct keys, reading a key gives the value of the entry holding it. */
  lemma {:induction false} FindDistinct<V>(a: Entries<V>, i: nat)
    requires DistinctKeys(a) && i < |a|
    ensures Find(a, a[i].0) == Some(a[i].1)
  {
    if i > 0 {
      assert DistinctKeys(a[1..]) by {
        forall p, q | 0 <= p < q < |a[1..]|
          ensures a[1..][p].0 != a[1..][q].0
        {
          assert a[1..][p] == a[p + 1] && a[1..][q] == a[q + 1];
        }
      }
      assert a[1..][i - 1] == a[i];
      assert a[0].0 != a[i].0;
      FindDistinct(a[1..], i - 1);
    }
  }

  /** `$a[$k] = $v`. */
  function Assign<V>(a: Entries<V>, k: Key, v: V): (r: Entries<V>)
    ensures forall k' :: k' != k ==> Find(r, k') == Find(a, k')
    ensures KeysOf(r) == if k in KeysOf(a) then KeysOf(a) else KeysOf(a) + [k]
    ensures forall e :: e in r ==> e in a || e == (k, v)
  {
    if a == [] then [(k, v)]
    else
      assert KeysOf(a) == [a[0].0] + KeysOf(a[1..]);
      if a[0].0 == k then
        var r := [(k, v)] + a[1..];
        assert r[1..] == a[1..];
          assert KeysOf(r) == [k] + KeysOf(a[1..]);
        r
      else
        var rest := Assign(a[1..], k, v);
        var r := [a[0]] + rest;
        assert r[1..] == rest;
        assert KeysOf(r) == [a[0].0] + KeysOf(rest);
        r
  }

  /** After `$a[$k] = $v`, reading `$a[$k]` gives `$v`. */
  lemma {:induction false} AssignThenFind<V>(a: Entries<V>, k: Key, v: V)
    ensures Find(Assign(a, k, v), k) == Some(v)
  {
    if a != [] && a[0].0 != k {
      AssignThenFind(a[1..], k, v);
      assert Assign(a, k, v)[1..] == Assign(a[1..], k, v);
    }
  }

  /** Writing a key keeps the keys of a PHP array distinct. */
  lemma AssignKeepsKeysDistinct<V>(a: Entries<V>, k: Key, v: V)
    requires DistinctKeys(a)
    ensures DistinctKeys(Assign(a, k, v))
  {
  }

  /** Two PHP arrays with the same keys in the same order and the same value
      under every key are the same array. */
  lemma {:induction false} Extensionality<V>(a: Entries<V>, b: Entries<V>)
    requires DistinctKeys(a) && DistinctKeys(b)
    requires KeysOf(a) == KeysOf(b)
    requires forall k :: Find(a, k) == Find(b, k)
    ensures a == b
  {
    assert |a| == |KeysOf(a)| == |b|;
    forall i | 0 <= i < |a|
      ensures a[i] == b[i]
    {
      assert KeysOf(a)[i] == a[i].0 && KeysOf(b)[i] == b[i].0;
      FindDistinct(a, i);
      FindDistinct(b, i);
    }
  }
}
