/** Ordering of query results. Every `orderBy` of the store is a sort by a key
    pair compared lexicographically; a descending field is encoded by negating it. */
module Sorting {

  /** Lexicographic order on key pairs. */
  predicate KeyLe(a: (int, int), b: (int, int))
  {
    a.0 < b.0 || (a.0 == b.0 && a.1 <= b.1)
  }

  /** Every element's key is at most the key of every later element. */
  predicate SortedBy<T>(s: seq<T>, key: T -> (int, int))
  {
    forall i, j :: 0 <= i < j < |s| ==> KeyLe(key(s[i]), key(s[j]))
  }

  /** Inserts `x` before the first element whose key is not below its own. */
  function Insert<T>(x: T, s: seq<T>, key: T -> (int, int)): (r: seq<T>)
    ensures multiset(r) == multiset(s) + multiset{x}
  {
    if |s| == 0 then [x]
    else if KeyLe(key(x), key(s[0])) then [x] + s
    else
      assert s == [s[0]] + s[1..];
      [s[0]] + Insert(x, s[1..], key)
  }

  /** Every element of a sorted sequence has a key at least that of its head. */
  lemma HeadIsLeast<T>(s: seq<T>, key: T -> (int, int), y: T)
    requires SortedBy(s, key) && y in s
    ensures KeyLe(key(s[0]), key(y))
  {
    var k :| 0 <= k < |s| && s[k] == y;
    if k > 0 {
      assert KeyLe(key(s[0]), key(s[k]));
    }
  }

  /** Inserting into a sorted sequence keeps it sorted. */
  lemma {:induction false} InsertSorted<T>(x: T, s: seq<T>, key: T -> (int, int))
    requires SortedBy(s, key)
    ensures SortedBy(Insert(x, s, key), key)
  {
    if |s| == 0 {
    } else if KeyLe(key(x), key(s[0])) {
      var r := [x] + s;
      forall j | 0 < j < |r|
        ensures KeyLe(key(x), key(r[j]))
      {
        HeadIsLeast(s, key, r[j]);
      }
    } else {
      var tail := s[1..];
      assert SortedBy(tail, key);
      var t := Insert(x, tail, key);
      InsertSorted(x, tail, key);
      forall y | y in t
        ensures KeyLe(key(s[0]), key(y))
      {
        assert y in multiset(t);
        if y != x {
          assert y in tail;
          HeadIsLeast(s, key, y);
        }
      }
      var r := [s[0]] + t;
      forall i, j | 0 <= i < j < |r|
        ensures KeyLe(key(r[i]), key(r[j]))
      {
        if i > 0 {
          assert r[i] == t[i - 1] && r[j] == t[j - 1];
        } else {
          assert r[j] in t;
        }
      }
      assert Insert(x, s, key) == r;
    }
  }

  /** Insertion sort: a permutation of `s` in key order. */
  function Sort<T>(s: seq<T>, key: T -> (int, int)): (r: seq<T>)
    ensures SortedBy(r, key)
    ensures multiset(r) == multiset(s)
    ensures |r| == |s|
  {
    if |s| == 0 then []
    else
      assert s == [s[0]] + s[1..];
      var rest := Sort(s[1..], key);
      InsertSorted(s[0], rest, key);
      var r := Insert(s[0], rest, key);
      assert |r| == |multiset(r)|;
      r
  }

  /** In a sorted sequence, every element after position n has a key at least
      that of every element before it: a prefix is a top-n selection. */
  lemma PrefixBeforeRest<T>(s: seq<T>, key: T -> (int, int), n: nat)
    requires SortedBy(s, key)
    requires n <= |s|
    ensures forall x, y :: x in s[..n] && y in s[n..] ==> KeyLe(key(x), key(y))
  {
    forall x, y | x in s[..n] && y in s[n..]
      ensures KeyLe(key(x), key(y))
    {
      var i :| 0 <= i < n && s[..n][i] == x;
      var j :| 0 <= j < |s| - n && s[n..][j] == y;
      assert s[i] == x && s[n + j] == y;
    }
  }
}
