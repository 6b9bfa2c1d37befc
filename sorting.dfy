// The stable sort the dashboard relies on: `Array.prototype.sort` with a
// comparator of the form `key(a) - key(b)` (stable since ECMAScript 2019).
// It is modelled as insertion sort by an integer key.
module Sorting {

  /** Keys never decrease along `s`. */
  predicate SortedBy<T>(s: seq<T>, key: T -> int)
  {
    forall i, j :: 0 <= i < j < |s| ==> key(s[i]) <= key(s[j])
  }

  /** The subsequence of `s` whose key is `k`, in order. */
  function WithKey<T>(s: seq<T>, key: T -> int, k: int): (r: seq<T>)
    ensures |r| <= |s|
  {
    if s == [] then []
    else (if key(s[0]) == k then [s[0]] else []) + WithKey(s[1..], key, k)
  }

  /** Inserts `x` before the first element whose key is not smaller. */
  function Insert<T>(x: T, s: seq<T>, key: T -> int): (r: seq<T>)
    ensures |r| == |s| + 1
  {
    if s == [] || key(x) <= key(s[0]) then [x] + s
    else [s[0]] + Insert(x, s[1..], key)
  }

  /** The stable sort of `s` by `key`. */
  function SortBy<T>(s: seq<T>, key: T -> int): (r: seq<T>)
    ensures |r| == |s|
  {
    if s == [] then [] else Insert(s[0], SortBy(s[1..], key), key)
  }

  /** `Insert` places `x` at some position `k`, keeping `s` around it. */
  lemma {:induction false} InsertSplit<T>(x: T, s: seq<T>, key: T -> int) returns (k: nat)
    ensures k <= |s|
    ensures Insert(x, s, key) == s[..k] + [x] + s[k..]
    ensures forall i :: 0 <= i < k ==> key(s[i]) < key(x)
  {
    if s == [] || key(x) <= key(s[0]) {
      k := 0;
    } else {
      var k' := InsertSplit(x, s[1..], key);
      k := k' + 1;
      assert s[1..][..k'] == s[1..k];
      assert s[1..][k'..] == s[k..];
      assert [s[0]] + s[1..k] == s[..k];
    }
  }

  lemma {:induction false} InsertSorted<T>(x: T, s: seq<T>, key: T -> int)
    requires SortedBy(s, key)
    ensures SortedBy(Insert(x, s, key), key)
  {
    if s == [] || key(x) <= key(s[0]) {
    } else {
      InsertSorted(x, s[1..], key);
      var k := InsertSplit(x, s[1..], key);
      var r := Insert(x, s, key);
      assert r == [s[0]] + Insert(x, s[1..], key);
      forall j | 0 < j < |r| ensures key(r[0]) <= key(r[j]) {
        if j - 1 < k { assert r[j] == s[1..][j - 1]; }
        else if j - 1 > k { assert r[j] == s[1..][j - 2]; }
      }
    }
  }

  lemma {:induction false} InsertWithKey<T>(x: T, s: seq<T>, key: T -> int, k: int)
    ensures WithKey(Insert(x, s, key), key, k)
         == (if key(x) == k then [x] else []) + WithKey(s, key, k)
  {
    if s == [] || key(x) <= key(s[0]) {
      assert ([x] + s)[1..] == s;
    } else {
      InsertWithKey(x, s[1..], key, k);
      assert ([s[0]] + Insert(x, s[1..], key))[1..] == Insert(x, s[1..], key);
    }
  }

  lemma {:induction false} SortByPermutation<T>(s: seq<T>, key: T -> int)
    ensures multiset(SortBy(s, key)) == multiset(s)
  {
    if s != [] {
      SortByPermutation(s[1..], key);
      var t := SortBy(s[1..], key);
      var i := InsertSplit(s[0], t, key);
      assert t == t[..i] + t[i..];
      assert multiset(SortBy(s, key)) == multiset(t[..i]) + multiset{s[0]} + multiset(t[i..]);
      assert s == [s[0]] + s[1..];
    }
  }

  lemma {:induction false} SortBySorted<T>(s: seq<T>, key: T -> int)
    ensures SortedBy(SortBy(s, key), key)
  {
    if s != [] {
      SortBySorted(s[1..], key);
      InsertSorted(s[0], SortBy(s[1..], key), key);
    }
  }

  lemma {:induction false} SortByStable<T>(s: seq<T>, key: T -> int, k: int)
    ensures WithKey(SortBy(s, key), key, k) == WithKey(s, key, k)
  {
    if s != [] {
      SortByStable(s[1..], key, k);
      InsertWithKey(s[0], SortBy(s[1..], key), key, k);
    }
  }

  /**
   * The sort is a permutation, its keys never decrease, and for every key
   * the elements carrying it keep their original relative order.
   */
  lemma SortByCorrect<T>(s: seq<T>, key: T -> int)
    ensures multiset(SortBy(s, key)) == multiset(s)
    ensures SortedBy(SortBy(s, key), key)
    ensures forall k :: WithKey(SortBy(s, key), key, k) == WithKey(s, key, k)
  {
    SortByPermutation(s, key);
    SortBySorted(s, key);
    forall k ensures WithKey(SortBy(s, key), key, k) == WithKey(s, key, k) {
      SortByStable(s, key, k);
    }
  }

  lemma SortByMember<T>(s: seq<T>, key: T -> int, x: T)
    ensures x in SortBy(s, key) <==> x in s
  {
    SortByCorrect(s, key);
    assert x in SortBy(s, key) <==> x in multiset(SortBy(s, key));
  }

  /** The first `n` entries of the stable sort (a sort followed by `slice(0, n)`). */
  function SmallestBy<T>(s: seq<T>, key: T -> int, n: nat): (r: seq<T>)
    ensures |r| == if |s| < n then |s| else n
  {
    SortBy(s, key)[..if |s| < n then |s| else n]
  }

  /**
   * The cut keeps the order, and every element left out is at least as far
   * down the key order as every element kept.
   */
  lemma SmallestByCorrect<T>(s: seq<T>, key: T -> int, n: nat)
    ensures var r := SmallestBy(s, key, n);
      && SortedBy(r, key)
      && multiset(r) <= multiset(s)
      && forall x, i | x in multiset(s) - multiset(r) && 0 <= i < |r| :: key(r[i]) <= key(x)
  {
    var t := SortBy(s, key);
    SortByPermutation(s, key);
    SortBySorted(s, key);
    var k := if |s| < n then |s| else n;
    var r := t[..k];
    assert t == r + t[k..];
    assert multiset(t) == multiset(r) + multiset(t[k..]);
    forall x, i | x in multiset(s) - multiset(r) && 0 <= i < |r|
      ensures key(r[i]) <= key(x)
    {
      BeyondCut(t, key, k, x, i);
    }
  }

  lemma BeyondCut<T>(t: seq<T>, key: T -> int, k: nat, x: T, i: nat)
    requires SortedBy(t, key) && k <= |t| && i < k
    requires x in multiset(t[k..])
    ensures key(t[i]) <= key(x)
  {
    var j :| 0 <= j < |t[k..]| && t[k..][j] == x;
    assert t[k + j] == x;
  }

  /** `apart` holds between every two elements of `s`. */
  predicate Pairwise<T>(s: seq<T>, apart: (T, T) -> bool)
  {
    forall i, j :: 0 <= i < j < |s| ==> apart(s[i], s[j])
  }

  /** Sorting keeps a symmetric relation that held between all pairs. */
  lemma {:induction false} SortByPairwise<T>(s: seq<T>, key: T -> int, apart: (T, T) -> bool)
    requires forall x, y :: apart(x, y) ==> apart(y, x)
    requires Pairwise(s, apart)
    ensures Pairwise(SortBy(s, key), apart)
  {
    if s != [] {
      var x := s[0];
      var t := SortBy(s[1..], key);
      SortByPairwise(s[1..], key, apart);
      var k := InsertSplit(x, t, key);
      var r := SortBy(s, key);
      assert r == t[..k] + [x] + t[k..];
      forall m | 0 <= m < |t| ensures apart(x, t[m]) && apart(t[m], x) {
        SortByMember(s[1..], key, t[m]);
        var p :| 0 <= p < |s[1..]| && s[1..][p] == t[m];
        assert s[p + 1] == t[m];
        assert apart(s[0], s[p + 1]);
      }
      forall i, j | 0 <= i < j < |r| ensures apart(r[i], r[j]) {
        if i < k && j < k {
          assert r[i] == t[i] && r[j] == t[j];
        } else if i < k && j == k {
          assert r[i] == t[i] && r[j] == x;
        } else if i < k {
          assert r[i] == t[i] && r[j] == t[j - 1];
        } else if i == k {
          assert r[i] == x && r[j] == t[j - 1];
        } else {
          assert r[i] == t[i - 1] && r[j] == t[j - 1];
        }
      }
    }
  }

  /** An element of a sequence whose elements are all different occurs once. */
  lemma {:induction false} AtMostOnce<T>(a: seq<T>, x: T)
    requires forall i, j :: 0 <= i < j < |a| ==> a[i] != a[j]
    ensures multiset(a)[x] <= 1
  {
    if a != [] {
      AtMostOnce(a[1..], x);
      assert a == [a[0]] + a[1..];
      assert a[0] !in a[1..];
    }
  }

  /** Two equal elements at different indices are counted twice. */
  lemma CountedTwice<T>(b: seq<T>, i: int, j: int)
    requires 0 <= i < j < |b| && b[i] == b[j]
    ensures multiset(b)[b[i]] >= 2
  {
    assert b == b[..j] + b[j..];
    assert b[i] in b[..j];
    assert b[j..][0] == b[j];
  }

  /** A permutation keeps keys pairwise different. */
  lemma PermutationDistinctBy<T>(a: seq<T>, b: seq<T>, key: T -> int)
    requires multiset(a) == multiset(b)
    requires forall i, j :: 0 <= i < j < |a| ==> key(a[i]) != key(a[j])
    ensures forall i, j :: 0 <= i < j < |b| ==> key(b[i]) != key(b[j])
  {
    forall i, j | 0 <= i < j < |b|
      ensures key(b[i]) != key(b[j])
    {
      assert forall p, q :: 0 <= p < q < |a| ==> a[p] != a[q];
      AtMostOnce(a, b[i]);
      if b[i] == b[j] {
        CountedTwice(b, i, j);
      }
      assert b[i] != b[j];
      assert b[i] in multiset(a) && b[j] in multiset(a);
      var p :| 0 <= p < |a| && a[p] == b[i];
      var q :| 0 <= q < |a| && a[q] == b[j];
      assert p != q;
    }
  }
}
