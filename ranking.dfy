// Ordering by an integer key, as `array.sort((a, b) => key(b) - key(a))` does
// (a stable sort, non-increasing in the key), and `slice(0, k)`.
module Ranking {

  /** Every element's key is at least the key of every later element. */
  ghost predicate NonIncreasing<T>(s: seq<T>, key: T -> int) {
    forall i, j :: 0 <= i < j < |s| ==> key(s[i]) >= key(s[j])
  }

  /** Puts `x` before the first element whose key does not exceed `key(x)`. */
  function InsertByKey<T>(x: T, s: seq<T>, key: T -> int): (r: seq<T>)
    ensures multiset(r) == multiset(s) + multiset{x}
  {
    if s == [] || key(s[0]) <= key(x) then [x] + s
    else
      assert s == [s[0]] + s[1..];
      [s[0]] + InsertByKey(x, s[1..], key)
  }

  /** Inserting into a non-increasing sequence keeps it non-increasing. */
  lemma {:induction false} InsertByKeySorted<T>(x: T, s: seq<T>, key: T -> int)
    requires NonIncreasing(s, key)
    ensures NonIncreasing(InsertByKey(x, s, key), key)
  {
    if s == [] || key(s[0]) <= key(x) {
    } else {
      var rest := InsertByKey(x, s[1..], key);
      InsertByKeySorted(x, s[1..], key);
      var r := [s[0]] + rest;
      forall i, j | 0 <= i < j < |r| ensures key(r[i]) >= key(r[j]) {
        if i == 0 {
          assert r[j] in multiset(rest);
          assert r[j] == x || r[j] in multiset(s[1..]);
          if r[j] != x {
            var m :| 0 <= m < |s[1..]| && s[1..][m] == r[j];
            assert s[1 + m] == r[j];
          }
        }
      }
    }
  }

  /** The elements of `s` ordered by non-increasing key; equal keys keep their order. */
  function SortDesc<T>(s: seq<T>, key: T -> int): (r: seq<T>)
    ensures multiset(r) == multiset(s)
    ensures |r| == |s|
    ensures NonIncreasing(r, key)
  {
    if s == [] then []
    else
      assert s == [s[0]] + s[1..];
      var r := InsertByKey(s[0], SortDesc(s[1..], key), key);
      InsertByKeySorted(s[0], SortDesc(s[1..], key), key);
      assert |r| == |multiset(r)|;
      r
  }

  /** The elements of `s` whose key is `v`, in order. */
  function WithKey<T>(s: seq<T>, key: T -> int, v: int): seq<T> {
    if s == [] then []
    else (if key(s[0]) == v then [s[0]] else []) + WithKey(s[1..], key, v)
  }

  lemma {:induction false} WithKeyInsert<T>(x: T, s: seq<T>, key: T -> int, v: int)
    ensures WithKey(InsertByKey(x, s, key), key, v)
            == (if key(x) == v then [x] else []) + WithKey(s, key, v)
  {
    if s == [] || key(s[0]) <= key(x) {
      assert ([x] + s)[1..] == s;
    } else {
      var rest := InsertByKey(x, s[1..], key);
      assert ([s[0]] + rest)[1..] == rest;
      WithKeyInsert(x, s[1..], key, v);
    }
  }

  /** The sort is stable: the elements sharing any one key keep their relative order. */
  lemma {:induction false} SortDescStable<T>(s: seq<T>, key: T -> int, v: int)
    ensures WithKey(SortDesc(s, key), key, v) == WithKey(s, key, v)
  {
    if s != [] {
      SortDescStable(s[1..], key, v);
      WithKeyInsert(s[0], SortDesc(s[1..], key), key, v);
    }
  }

  /** `s.slice(0, k)`. */
  function Take<T>(s: seq<T>, k: nat): (r: seq<T>)
    ensures |r| == if |s| < k then |s| else k
    ensures r == s[..|r|]
  {
    if |s| < k then s else s[..k]
  }

  /**
   * The first `k` of the sorted elements are the top `k`: non-increasing, drawn from
   * `s`, and none of the elements left out has a larger key than any of those kept.
   */
  lemma TopK<T>(s: seq<T>, key: T -> int, k: nat)
    ensures NonIncreasing(Take(SortDesc(s, key), k), key)
    ensures multiset(Take(SortDesc(s, key), k)) <= multiset(s)
    ensures forall x, y :: x in Take(SortDesc(s, key), k) && y in multiset(s) - multiset(Take(SortDesc(s, key), k))
              ==> key(x) >= key(y)
  {
    var r := SortDesc(s, key);
    PrefixOfSorted(s, r, Take(r, k), key);
  }

  /** A prefix of a non-increasing arrangement of `s` is drawn from `s` and keeps the largest keys. */
  lemma PrefixOfSorted<T>(s: seq<T>, r: seq<T>, t: seq<T>, key: T -> int)
    requires multiset(r) == multiset(s) && NonIncreasing(r, key)
    requires |t| <= |r| && t == r[..|t|]
    ensures NonIncreasing(t, key)
    ensures multiset(t) <= multiset(s)
    ensures forall x, y :: x in t && y in multiset(s) - multiset(t) ==> key(x) >= key(y)
  {
    var u := r[|t|..];
    assert r == t + u;
    assert multiset(s) - multiset(t) == multiset(u);
    PrefixDominates(r, key, |t|);
  }

  /** In a non-increasing sequence, a prefix is non-increasing and no key after it exceeds a key in it. */
  lemma PrefixDominates<T>(r: seq<T>, key: T -> int, n: nat)
    requires NonIncreasing(r, key) && n <= |r|
    ensures NonIncreasing(r[..n], key)
    ensures forall x, y :: x in r[..n] && y in multiset(r[n..]) ==> key(x) >= key(y)
  {
    forall x, y | x in r[..n] && y in multiset(r[n..]) ensures key(x) >= key(y) {
      var i :| 0 <= i < n && r[..n][i] == x;
      var j :| 0 <= j < |r| - n && r[n..][j] == y;
      assert r[i] == x && r[n + j] == y;
    }
  }
}
