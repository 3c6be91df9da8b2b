/** The array operations the routes and pages use, as functions on
    sequences: `Array.prototype.filter`, `slice(0, n)`, and the stable
    `Array.prototype.sort` with a numeric-key comparator `(a, b) => key(a) - key(b)`. */
module Seqs {

  /** `s.filter(p)` */
  function Filter<T>(s: seq<T>, p: T -> bool): (r: seq<T>)
    ensures |r| <= |s|
    ensures forall x :: x in r ==> x in s && p(x)
    ensures forall x :: x in s && p(x) ==> x in r
  {
    if s == [] then []
    else (if p(s[0]) then [s[0]] else []) + Filter(s[1..], p)
  }

  lemma {:induction false} FilterConcat<T>(a: seq<T>, b: seq<T>, p: T -> bool)
    ensures Filter(a + b, p) == Filter(a, p) + Filter(b, p)
  {
    if a == [] {
      assert a + b == b;
    } else {
      assert (a + b)[1..] == a[1..] + b;
      FilterConcat(a[1..], b, p);
    }
  }

  /** A filter keeps every element exactly when every element passes. */
  lemma {:induction false} FilterCountAll<T>(s: seq<T>, p: T -> bool)
    ensures |Filter(s, p)| == |s| <==> forall i :: 0 <= i < |s| ==> p(s[i])
  {
    if s != [] {
      FilterCountAll(s[1..], p);
      assert forall i :: 1 <= i < |s| ==> s[1..][i - 1] == s[i];
    }
  }

  /** `s.slice(0, n)` */
  function Take<T>(s: seq<T>, n: nat): (r: seq<T>)
    ensures |r| == if |s| <= n then |s| else n
    ensures r <= s
  {
    if |s| <= n then s else s[..n]
  }

  ghost predicate SortedBy<T>(s: seq<T>, key: T -> real) {
    forall i, j :: 0 <= i < j < |s| ==> key(s[i]) <= key(s[j])
  }

  /** Inserts `x` before the first element whose key is not smaller, so that
      `x` goes after every element with a smaller key. */
  function Insert<T>(x: T, t: seq<T>, key: T -> real): (r: seq<T>)
    ensures multiset(r) == multiset(t) + multiset{x}
    ensures |r| == |t| + 1
  {
    if t == [] || key(x) <= key(t[0]) then [x] + t
    else
      assert t == [t[0]] + t[1..];
      [t[0]] + Insert(x, t[1..], key)
  }

  /** Every element of an insertion's result is the inserted one or came from `t`. */
  lemma InsertedFrom<T>(x: T, t: seq<T>, key: T -> real, y: T)
    requires y in Insert(x, t, key)
    ensures y == x || y in t
  {
    assert y in multiset(Insert(x, t, key));
  }

  lemma InTail<T>(t: seq<T>, y: T)
    requires t != [] && y in t[1..]
    ensures exists k :: 1 <= k < |t| && t[k] == y
  {
    var k :| 0 <= k < |t[1..]| && t[1..][k] == y;
    assert t[k + 1] == y;
  }

  /** A sorted sequence stays sorted behind a head no larger than any element. */
  lemma SortedCons<T>(h: T, rest: seq<T>, key: T -> real)
    requires SortedBy(rest, key)
    requires forall y :: y in rest ==> key(h) <= key(y)
    ensures SortedBy([h] + rest, key)
  {
    var r := [h] + rest;
    forall i, j | 0 <= i < j < |r| ensures key(r[i]) <= key(r[j]) {
      assert r[j] == rest[j - 1];
      if i > 0 {
        assert r[i] == rest[i - 1];
      }
    }
  }

  lemma {:induction false} InsertSorted<T>(x: T, t: seq<T>, key: T -> real)
    requires SortedBy(t, key)
    ensures SortedBy(Insert(x, t, key), key)
  {
    if t == [] || key(x) <= key(t[0]) {
      forall y | y in t ensures key(x) <= key(y) {
        var k :| 0 <= k < |t| && t[k] == y;
      }
      SortedCons(x, t, key);
    } else {
      var rest := Insert(x, t[1..], key);
      assert SortedBy(t[1..], key) by {
        forall i, j | 0 <= i < j < |t[1..]| ensures key(t[1..][i]) <= key(t[1..][j]) {
          assert t[1..][i] == t[i + 1] && t[1..][j] == t[j + 1];
        }
      }
      InsertSorted(x, t[1..], key);
      forall y | y in rest ensures key(t[0]) <= key(y) {
        InsertedFrom(x, t[1..], key, y);
        if y != x {
          InTail(t, y);
        }
      }
      SortedCons(t[0], rest, key);
    }
  }

  /** The stable sort of `s` by `key`, by insertion: `[...s].sort((a, b) => key(a) - key(b))`. */
  function SortBy<T>(s: seq<T>, key: T -> real): (r: seq<T>)
  {
    if s == [] then [] else Insert(s[0], SortBy(s[1..], key), key)
  }

  /** The sorted copy holds exactly the same elements, as many times each. */
  lemma {:induction false} SortByPermutes<T>(s: seq<T>, key: T -> real)
    ensures multiset(SortBy(s, key)) == multiset(s)
    ensures |SortBy(s, key)| == |s|
  {
    if s != [] {
      SortByPermutes(s[1..], key);
      assert s == [s[0]] + s[1..];
    }
  }

  /** The sorted copy is in non-decreasing key order. */
  lemma {:induction false} SortBySorted<T>(s: seq<T>, key: T -> real)
    ensures SortedBy(SortBy(s, key), key)
  {
    if s != [] {
      SortBySorted(s[1..], key);
      InsertSorted(s[0], SortBy(s[1..], key), key);
    }
  }

  /** The elements of `s` whose key is `k`, in their order in `s`. */
  function WithKey<T>(s: seq<T>, key: T -> real, k: real): (r: seq<T>)
    ensures forall x :: x in r ==> x in s && key(x) == k
  {
    if s == [] then []
    else (if key(s[0]) == k then [s[0]] else []) + WithKey(s[1..], key, k)
  }

  lemma WithKeyCons<T>(h: T, s: seq<T>, key: T -> real, k: real)
    ensures WithKey([h] + s, key, k) == (if key(h) == k then [h] else []) + WithKey(s, key, k)
  {
    assert ([h] + s)[1..] == s;
  }

  /** Putting `h` in front of two sequences that agree on key `k` once `x`
      is set aside keeps them agreeing, when `h` goes before `x` in key order. */
  lemma WithKeyCommute<T>(h: T, x: T, rest: seq<T>, t: seq<T>, key: T -> real, k: real)
    requires key(h) < key(x)
    requires WithKey(rest, key, k) == (if key(x) == k then [x] else []) + WithKey(t, key, k)
    ensures WithKey([h] + rest, key, k) == (if key(x) == k then [x] else []) + WithKey([h] + t, key, k)
  {
    WithKeyCons(h, rest, key, k);
    WithKeyCons(h, t, key, k);
    if key(h) == k {
      assert WithKey(rest, key, k) == WithKey(t, key, k);
    }
  }

  lemma {:induction false} InsertWithKey<T>(x: T, t: seq<T>, key: T -> real, k: real)
    ensures WithKey(Insert(x, t, key), key, k)
         == (if key(x) == k then [x] else []) + WithKey(t, key, k)
  {
    if t == [] || key(x) <= key(t[0]) {
      WithKeyCons(x, t, key, k);
    } else {
      assert Insert(x, t, key) == [t[0]] + Insert(x, t[1..], key);
      InsertWithKey(x, t[1..], key, k);
      WithKeyCommute(t[0], x, Insert(x, t[1..], key), t[1..], key, k);
      assert [t[0]] + t[1..] == t;
    }
  }

  /** Stability: for every key, the elements with that key appear in the
      sorted copy in the same order as in `s`. */
  lemma {:induction false} SortByStable<T>(s: seq<T>, key: T -> real, k: real)
    ensures WithKey(SortBy(s, key), key, k) == WithKey(s, key, k)
  {
    if s != [] {
      SortByStable(s[1..], key, k);
      InsertWithKey(s[0], SortBy(s[1..], key), key, k);
    }
  }

  ghost predicate IncreasingBy<T>(s: seq<T>, rank: T -> real) {
    forall i, j :: 0 <= i < j < |s| ==> rank(s[i]) < rank(s[j])
  }

  lemma IncreasingTail<T>(s: seq<T>, rank: T -> real)
    requires s != [] && IncreasingBy(s, rank)
    ensures IncreasingBy(s[1..], rank)
  {
    var tail := s[1..];
    forall i, j | 0 <= i < j < |tail| ensures rank(tail[i]) < rank(tail[j]) {
      assert tail[i] == s[i + 1] && tail[j] == s[j + 1];
    }
  }

  lemma HeadBelowFiltered<T>(s: seq<T>, p: T -> bool, rank: T -> real, y: T)
    requires s != [] && IncreasingBy(s, rank)
    requires y in Filter(s[1..], p)
    ensures rank(s[0]) < rank(y)
  {
    var tail := s[1..];
    assert y in tail;
    var k :| 0 <= k < |tail| && tail[k] == y;
    assert s[k + 1] == y;
  }

  /** Filtering keeps the relative order of the elements it keeps. */
  lemma {:induction false} FilterKeepsIncreasing<T>(s: seq<T>, p: T -> bool, rank: T -> real)
    requires IncreasingBy(s, rank)
    ensures IncreasingBy(Filter(s, p), rank)
  {
    if s != [] {
      IncreasingTail(s, rank);
      FilterKeepsIncreasing(s[1..], p, rank);
      var rest := Filter(s[1..], p);
      if p(s[0]) {
        var r := [s[0]] + rest;
        assert Filter(s, p) == r;
        forall i, j | 0 <= i < j < |r| ensures rank(r[i]) < rank(r[j]) {
          assert r[j] == rest[j - 1];
          if i == 0 {
            HeadBelowFiltered(s, p, rank, r[j]);
          } else {
            assert r[i] == rest[i - 1];
          }
        }
      } else {
        assert Filter(s, p) == rest;
      }
    }
  }

  /** Distinct ranks, and elements with equal keys in increasing rank. */
  ghost predicate TiesByRank<T>(s: seq<T>, key: T -> real, rank: T -> real) {
    forall i, j :: 0 <= i < j < |s| ==>
      rank(s[i]) != rank(s[j]) && (key(s[i]) == key(s[j]) ==> rank(s[i]) < rank(s[j]))
  }

  /** A head whose rank differs from every later element's, and is below
      theirs on equal keys, keeps the ties broken by rank. */
  lemma TiesCons<T>(h: T, rest: seq<T>, key: T -> real, rank: T -> real)
    requires TiesByRank(rest, key, rank)
    requires forall y :: y in rest ==> rank(h) != rank(y) && (key(h) == key(y) ==> rank(h) < rank(y))
    ensures TiesByRank([h] + rest, key, rank)
  {
    var r := [h] + rest;
    forall i, j | 0 <= i < j < |r|
      ensures rank(r[i]) != rank(r[j]) && (key(r[i]) == key(r[j]) ==> rank(r[i]) < rank(r[j]))
    {
      assert r[j] == rest[j - 1];
      if i > 0 {
        assert r[i] == rest[i - 1];
      }
    }
  }

  lemma TiesTail<T>(t: seq<T>, key: T -> real, rank: T -> real)
    requires t != [] && TiesByRank(t, key, rank)
    ensures TiesByRank(t[1..], key, rank)
    ensures forall y :: y in t[1..] ==> rank(t[0]) != rank(y) && (key(t[0]) == key(y) ==> rank(t[0]) < rank(y))
  {
    var tail := t[1..];
    forall i, j | 0 <= i < j < |tail|
      ensures rank(tail[i]) != rank(tail[j]) && (key(tail[i]) == key(tail[j]) ==> rank(tail[i]) < rank(tail[j]))
    {
      assert tail[i] == t[i + 1] && tail[j] == t[j + 1];
    }
    forall y | y in tail
      ensures rank(t[0]) != rank(y) && (key(t[0]) == key(y) ==> rank(t[0]) < rank(y))
    {
      InTail(t, y);
    }
  }

  lemma {:induction false} InsertTiesByRank<T>(x: T, t: seq<T>, key: T -> real, rank: T -> real)
    requires TiesByRank(t, key, rank)
    requires forall y :: y in t ==> rank(x) < rank(y)
    ensures TiesByRank(Insert(x, t, key), key, rank)
  {
    if t == [] || key(x) <= key(t[0]) {
      TiesCons(x, t, key, rank);
    } else {
      var rest := Insert(x, t[1..], key);
      TiesTail(t, key, rank);
      InsertTiesByRank(x, t[1..], key, rank);
      forall y | y in rest
        ensures rank(t[0]) != rank(y) && (key(t[0]) == key(y) ==> rank(t[0]) < rank(y))
      {
        InsertedFrom(x, t[1..], key, y);
        if y == x {
          assert t[0] in t;
        }
      }
      TiesCons(t[0], rest, key, rank);
    }
  }

  /** When the input is in strictly increasing rank (for instance, every
      element carries its original position), the sorted copy has distinct
      ranks and breaks key ties by rank: original order on ties. */
  lemma {:induction false} SortByTiesByRank<T>(s: seq<T>, key: T -> real, rank: T -> real)
    requires IncreasingBy(s, rank)
    ensures TiesByRank(SortBy(s, key), key, rank)
  {
    if s != [] {
      var tail := SortBy(s[1..], key);
      assert IncreasingBy(s[1..], rank) by {
        forall i, j | 0 <= i < j < |s[1..]| ensures rank(s[1..][i]) < rank(s[1..][j]) {
          assert s[1..][i] == s[i + 1] && s[1..][j] == s[j + 1];
        }
      }
      SortByTiesByRank(s[1..], key, rank);
      SortByPermutes(s[1..], key);
      forall y | y in tail ensures rank(s[0]) < rank(y) {
        assert y in multiset(tail);
        assert y in multiset(s[1..]);
        var k :| 0 <= k < |s[1..]| && s[1..][k] == y;
        assert s[k + 1] == y;
      }
      InsertTiesByRank(s[0], tail, key, rank);
    }
  }

  /** The first `n` of a stable sort are the `n` smallest keys: no element
      left out has a smaller key than any element kept. */
  lemma SortedPrefixIsNearest<T>(s: seq<T>, key: T -> real, n: nat, y: T)
    requires y in s && y !in Take(SortBy(s, key), n)
    ensures forall z :: z in Take(SortBy(s, key), n) ==> key(z) <= key(y)
  {
    var sorted := SortBy(s, key);
    SortByPermutes(s, key);
    SortBySorted(s, key);
    assert y in multiset(sorted);
    var idx :| 0 <= idx < |sorted| && sorted[idx] == y;
    var r := Take(sorted, n);
    assert forall a :: 0 <= a < |r| ==> sorted[a] == r[a] && r[a] in r;
    assert idx >= |r|;
    forall z | z in r ensures key(z) <= key(y) {
      var a :| 0 <= a < |r| && r[a] == z;
      assert sorted[a] == z;
    }
  }

  /** The first `n` of a stable sort of a sequence increasing in `rank`:
      sorted, ties in rank order, at most `n` long, and the whole input
      when it has at most `n` elements. */
  lemma SortedPrefixRanked<T>(s: seq<T>, key: T -> real, rank: T -> real, n: nat)
    requires IncreasingBy(s, rank)
    ensures SortedBy(Take(SortBy(s, key), n), key)
    ensures TiesByRank(Take(SortBy(s, key), n), key, rank)
    ensures |Take(SortBy(s, key), n)| <= n
    ensures |s| <= n ==> multiset(Take(SortBy(s, key), n)) == multiset(s)
  {
    var sorted := SortBy(s, key);
    SortBySorted(s, key);
    SortByPermutes(s, key);
    SortByTiesByRank(s, key, rank);
    var r := Take(sorted, n);
    assert forall i :: 0 <= i < |r| ==> r[i] == sorted[i];
  }
}
