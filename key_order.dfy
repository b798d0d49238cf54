/** IndexedDB's `getAll` lists the records of an object store in ascending key
    order: string keys compare element by element, and a proper prefix sorts
    before every longer key. Here a key is a sequence of characters, so the
    comparison is by character; IndexedDB compares UTF-16 code units, which orders
    the same way except between a character outside the Basic Multilingual Plane
    and one in U+E000..U+FFFF. This module defines that order, shows that it is a
    total order, and builds the list `getAll` returns from a keyed map. */
module KeyOrder {

  /** `a` sorts no later than `b`. */
  predicate KeyLe(a: string, b: string)
    decreases |a|
  {
    a == [] || (b != [] && (a[0] < b[0] || (a[0] == b[0] && KeyLe(a[1..], b[1..]))))
  }

  lemma {:induction false} KeyLeReflexive(a: string)
    ensures KeyLe(a, a)
    decreases |a|
  {
    if a != [] {
      KeyLeReflexive(a[1..]);
    }
  }

  lemma {:induction false} KeyLeTotal(a: string, b: string)
    ensures KeyLe(a, b) || KeyLe(b, a)
    decreases |a|
  {
    if a != [] && b != [] && a[0] == b[0] {
      KeyLeTotal(a[1..], b[1..]);
    }
  }

  lemma {:induction false} KeyLeAntisymmetric(a: string, b: string)
    requires KeyLe(a, b) && KeyLe(b, a)
    ensures a == b
    decreases |a|
  {
    if a != [] && b != [] {
      KeyLeAntisymmetric(a[1..], b[1..]);
      assert a == [a[0]] + a[1..] && b == [b[0]] + b[1..];
    }
  }

  lemma {:induction false} KeyLeTransitive(a: string, b: string, c: string)
    requires KeyLe(a, b) && KeyLe(b, c)
    ensures KeyLe(a, c)
    decreases |a|
  {
    if a != [] && a[0] == b[0] && b[0] == c[0] {
      KeyLeTransitive(a[1..], b[1..], c[1..]);
    }
  }

  /** `m` is the first key of `keys`. */
  predicate IsLeast(m: string, keys: set<string>) {
    m in keys && forall k :: k in keys ==> KeyLe(m, k)
  }

  lemma {:induction false} LeastExists(keys: set<string>)
    requires keys != {}
    ensures exists m :: IsLeast(m, keys)
    decreases |keys|
  {
    var x :| x in keys;
    if keys == {x} {
      KeyLeReflexive(x);
      assert IsLeast(x, keys);
    } else {
      LeastExists(keys - {x});
      var m :| IsLeast(m, keys - {x});
      KeyLeTotal(x, m);
      if KeyLe(x, m) {
        forall k | k in keys
          ensures KeyLe(x, k)
        {
          if k == x {
            KeyLeReflexive(x);
          } else {
            KeyLeTransitive(x, m, k);
          }
        }
        assert IsLeast(x, keys);
      } else {
        assert IsLeast(m, keys);
      }
    }
  }

  lemma LeastUnique(keys: set<string>)
    ensures forall m1, m2 :: IsLeast(m1, keys) && IsLeast(m2, keys) ==> m1 == m2
  {
    forall m1, m2 | IsLeast(m1, keys) && IsLeast(m2, keys)
      ensures m1 == m2
    {
      KeyLeAntisymmetric(m1, m2);
    }
  }

  /** The keys of a store in the order a cursor visits them. */
  function SortedKeys(keys: set<string>): (r: seq<string>)
    ensures |r| == |keys|
    ensures forall k :: k in r <==> k in keys
    ensures forall i, j :: 0 <= i < j < |r| ==> KeyLe(r[i], r[j]) && r[i] != r[j]
    decreases |keys|
  {
    if keys == {} then []
    else
      LeastExists(keys);
      LeastUnique(keys);
      var m :| m in keys && IsLeast(m, keys);
      [m] + SortedKeys(keys - {m})
  }

  /** `getAll` on a store: its values, one per key, in ascending key order. */
  function ValuesByKey<V>(store: map<string, V>): (r: seq<V>)
    ensures |r| == |store|
  {
    var ks := SortedKeys(store.Keys);
    seq(|ks|, i requires 0 <= i < |ks| => store[ks[i]])
  }

  /** Position `i` of `getAll` holds the value of the `i`-th key in key order, and
      every stored value is listed. */
  lemma ValuesByKeyIndexing<V>(store: map<string, V>)
    ensures var r, ks := ValuesByKey(store), SortedKeys(store.Keys);
      && |r| == |ks|
      && (forall i :: 0 <= i < |r| ==> ks[i] in store && r[i] == store[ks[i]])
      && (forall k :: k in store ==> exists i :: 0 <= i < |r| && ks[i] == k)
  {
    var ks := SortedKeys(store.Keys);
    forall k | k in store
      ensures exists i :: 0 <= i < |ks| && ks[i] == k
    {
      assert k in ks;
    }
  }
}
