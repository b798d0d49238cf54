/** The list transforms of JavaScript arrays that the screens rely on:
    `filter`, and the stable `sort` with a numeric comparator `(a, b) => key(b) - key(a)`
    (largest key first). */
module Seqs {
  import opened Types

  /** `s.find(p)`: the first element satisfying `p`, if there is one. */
  function Find<T(==)>(s: seq<T>, p: T -> bool): (r: Option<T>)
    ensures r.None? <==> forall i :: 0 <= i < |s| ==> !p(s[i])
    ensures r.Some? ==> r.value in s && p(r.value)
    ensures r.Some? ==> exists k :: 0 <= k < |s| && s[k] == r.value && forall i :: 0 <= i < k ==> !p(s[i])
    decreases |s|
  {
    if s == [] then None
    else if p(s[0]) then Some(s[0])
    else
      var r := Find(s[1..], p);
      if r.None? then None
      else
        assert exists k :: 0 <= k < |s| && s[k] == r.value && forall i :: 0 <= i < k ==> !p(s[i]) by {
          var k :| 0 <= k < |s[1..]| && s[1..][k] == r.value && forall i :: 0 <= i < k ==> !p(s[1..][i]);
          assert s[k + 1] == r.value;
          forall i | 0 <= i < k + 1
            ensures !p(s[i])
          {
            if i > 0 {
              assert s[i] == s[1..][i - 1];
            }
          }
        }
        r
  }

  /** `s.filter(p)`: the elements satisfying `p`, in their original order. */
  function Filter<T>(s: seq<T>, p: T -> bool): (r: seq<T>)
    ensures |r| <= |s|
    ensures forall i :: 0 <= i < |r| ==> p(r[i])
    decreases |s|
  {
    if s == [] then []
    else if p(s[0]) then [s[0]] + Filter(s[1..], p)
    else Filter(s[1..], p)
  }

  lemma {:induction false} FilterMembers<T>(s: seq<T>, p: T -> bool, x: T)
    ensures x in Filter(s, p) <==> x in s && p(x)
    decreases |s|
  {
    if s != [] {
      FilterMembers(s[1..], p, x);
      assert s == [s[0]] + s[1..];
    }
  }

  /** `r` can be obtained from `s` by deleting elements, keeping the order of the rest. */
  ghost predicate IsSubsequence<T>(r: seq<T>, s: seq<T>)
    decreases |s|
  {
    if r == [] then true
    else if s == [] then false
    else (r[0] == s[0] && IsSubsequence(r[1..], s[1..])) || IsSubsequence(r, s[1..])
  }

  lemma {:induction false} FilterIsSubsequence<T>(s: seq<T>, p: T -> bool)
    ensures IsSubsequence(Filter(s, p), s)
    decreases |s|
  {
    if s != [] {
      FilterIsSubsequence(s[1..], p);
      var r := Filter(s, p);
      if p(s[0]) {
        assert r[0] == s[0] && r[1..] == Filter(s[1..], p);
      }
    }
  }

  /** `filter` distributes over concatenation. */
  lemma {:induction false} FilterAppend<T>(a: seq<T>, b: seq<T>, p: T -> bool)
    ensures Filter(a + b, p) == Filter(a, p) + Filter(b, p)
    decreases |a|
  {
    if a == [] {
      assert a + b == b;
    } else {
      assert (a + b)[0] == a[0] && (a + b)[1..] == a[1..] + b;
      FilterAppend(a[1..], b, p);
    }
  }

  /** When every element passes, `filter` returns the list unchanged. */
  lemma {:induction false} FilterKeepsAll<T>(s: seq<T>, p: T -> bool)
    requires forall i :: 0 <= i < |s| ==> p(s[i])
    ensures Filter(s, p) == s
    decreases |s|
  {
    if s != [] {
      assert p(s[0]);
      FilterKeepsAll(s[1..], p);
      assert s == [s[0]] + s[1..];
    }
  }

  lemma FilterSingleton<T>(x: T, p: T -> bool)
    ensures Filter([x], p) == if p(x) then [x] else []
  {
    assert [x][1..] == [];
  }

  /** Filtering a list in which every element but the one at `k` passes: the others
      all stay, in order. */
  lemma FilterAllBut<T>(s: seq<T>, k: nat, p: T -> bool)
    requires k < |s|
    requires forall i :: 0 <= i < |s| && i != k ==> p(s[i])
    ensures Filter(s, p) == s[..k] + (if p(s[k]) then [s[k]] else []) + s[k + 1..]
  {
    var pre, mid, post := s[..k], [s[k]], s[k + 1..];
    assert s == (pre + mid) + post;
    forall i | 0 <= i < |pre|
      ensures p(pre[i])
    {
      assert pre[i] == s[i];
    }
    forall i | 0 <= i < |post|
      ensures p(post[i])
    {
      assert post[i] == s[k + 1 + i];
    }
    FilterKeepsAll(pre, p);
    FilterKeepsAll(post, p);
    FilterSingleton(s[k], p);
    FilterAppend(pre, mid, p);
    assert Filter(pre + mid, p) == pre + Filter(mid, p);
    FilterAppend(pre + mid, post, p);
  }

  /** No element occurs twice. */
  ghost predicate Distinct<T>(s: seq<T>) {
    forall i, j :: 0 <= i < j < |s| ==> s[i] != s[j]
  }

  lemma {:induction false} DistinctOnce<T>(s: seq<T>, x: T)
    requires Distinct(s)
    ensures multiset(s)[x] <= 1
    decreases |s|
  {
    if s != [] {
      assert s == [s[0]] + s[1..];
      assert Distinct(s[1..]) by {
        forall i, j | 0 <= i < j < |s[1..]|
          ensures s[1..][i] != s[1..][j]
        {
          assert s[1..][i] == s[i + 1] && s[1..][j] == s[j + 1];
        }
      }
      DistinctOnce(s[1..], x);
      if s[0] == x {
        assert x !in s[1..] by {
          forall k | 0 <= k < |s[1..]|
            ensures s[1..][k] != x
          {
            assert s[1..][k] == s[k + 1];
          }
        }
      }
    }
  }

  /** A rearrangement of a list without repeats has none either. */
  lemma DistinctPermutation<T>(s: seq<T>, t: seq<T>)
    requires Distinct(s) && multiset(s) == multiset(t)
    ensures Distinct(t)
  {
    forall i, j | 0 <= i < j < |t|
      ensures t[i] != t[j]
    {
      if t[i] == t[j] {
        var x := t[i];
        assert t == t[..j] + [x] + t[j + 1..];
        assert x in t[..j];
        assert multiset(t)[x] == multiset(t[..j])[x] + 1 + multiset(t[j + 1..])[x];
        DistinctOnce(s, x);
        assert false;
      }
    }
  }

  /** Non-increasing by `key`. */
  ghost predicate SortedDesc<T>(s: seq<T>, key: T -> int) {
    forall i, j :: 0 <= i < j < |s| ==> key(s[i]) >= key(s[j])
  }

  /** Insert `x` after every element whose key is at least `x`'s: equal keys keep their order. */
  function InsertDesc<T>(x: T, s: seq<T>, key: T -> int): (r: seq<T>)
    ensures multiset(r) == multiset(s) + multiset{x}
    decreases |s|
  {
    if s == [] then [x]
    else if key(s[0]) >= key(x) then
      assert s == [s[0]] + s[1..];
      [s[0]] + InsertDesc(x, s[1..], key)
    else
      [x] + s
  }

  /** Inserting a key no larger than `b` into a list bounded by `b` keeps it bounded. */
  lemma {:induction false} InsertDescBelow<T>(x: T, s: seq<T>, key: T -> int, b: int)
    requires key(x) <= b
    requires forall i :: 0 <= i < |s| ==> key(s[i]) <= b
    ensures forall i :: 0 <= i < |InsertDesc(x, s, key)| ==> key(InsertDesc(x, s, key)[i]) <= b
    decreases |s|
  {
    if s != [] && key(s[0]) >= key(x) {
      var rest := InsertDesc(x, s[1..], key);
      InsertDescBelow(x, s[1..], key, b);
      var r := [s[0]] + rest;
      forall i | 0 <= i < |r|
        ensures key(r[i]) <= b
      {
        if i > 0 {
          assert r[i] == rest[i - 1];
        }
      }
    }
  }

  lemma {:induction false} InsertDescSorted<T>(x: T, s: seq<T>, key: T -> int)
    requires SortedDesc(s, key)
    ensures SortedDesc(InsertDesc(x, s, key), key)
    decreases |s|
  {
    if s != [] && key(s[0]) >= key(x) {
      var rest := InsertDesc(x, s[1..], key);
      InsertDescSorted(x, s[1..], key);
      InsertDescBelow(x, s[1..], key, key(s[0]));
      var r := [s[0]] + rest;
      forall i, j | 0 <= i < j < |r|
        ensures key(r[i]) >= key(r[j])
      {
        assert r[j] == rest[j - 1];
        if i > 0 {
          assert r[i] == rest[i - 1];
        }
      }
    }
  }

  /** Stable sort, largest key first: `s.sort((a, b) => key(b) - key(a))`. */
  function SortDesc<T>(s: seq<T>, key: T -> int): (r: seq<T>)
    ensures multiset(r) == multiset(s)
    ensures SortedDesc(r, key)
    decreases |s|
  {
    if s == [] then []
    else
      assert s == s[..|s| - 1] + [s[|s| - 1]];
      InsertDescSorted(s[|s| - 1], SortDesc(s[..|s| - 1], key), key);
      InsertDesc(s[|s| - 1], SortDesc(s[..|s| - 1], key), key)
  }

  /** `s.slice(0, n)` */
  function Take<T>(s: seq<T>, n: nat): (r: seq<T>)
    ensures |r| == if |s| <= n then |s| else n
    ensures r == s[..|r|]
  {
    if |s| <= n then s else s[..n]
  }
}
