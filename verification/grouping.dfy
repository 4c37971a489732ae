/** Counting occurrences of keys: the `groupBy` of the store and the
    `reduce` into a date-keyed object used by the analytics route. */
module Grouping {

  /** One group: a key and how many items carry it. */
  datatype Bucket<K> = Bucket(key: K, count: nat)

  /** The sum of all bucket counts. */
  function Total<K>(b: seq<Bucket<K>>): nat
  {
    if |b| == 0 then 0 else b[0].count + Total(b[1..])
  }

  /** The count recorded for key `k` (summed, should `k` occur more than once). */
  function CountAt<K(==)>(b: seq<Bucket<K>>, k: K): nat
  {
    if |b| == 0 then 0 else (if b[0].key == k then b[0].count else 0) + CountAt(b[1..], k)
  }

  /** No key occurs in two buckets. */
  predicate KeysUnique<K(==)>(b: seq<Bucket<K>>)
  {
    forall i, j :: 0 <= i < j < |b| ==> b[i].key != b[j].key
  }

  /** Every bucket records at least one item: no empty group is synthesised. */
  predicate NoEmptyBucket<K>(b: seq<Bucket<K>>)
  {
    forall i :: 0 <= i < |b| ==> b[i].count >= 1
  }

  /** Keys strictly increase along the sequence. */
  predicate Ascending(b: seq<Bucket<int>>)
  {
    forall i, j :: 0 <= i < j < |b| ==> b[i].key < b[j].key
  }

  /** A key with no bucket has count 0. */
  lemma {:induction false} CountAtAbsent<K>(b: seq<Bucket<K>>, k: K)
    requires forall i :: 0 <= i < |b| ==> b[i].key != k
    ensures CountAt(b, k) == 0
  {
    if |b| > 0 {
      CountAtAbsent(b[1..], k);
    }
  }

  /** Counting, in place, one more item with key `k`: the bucket for `k`
      is incremented, or a new bucket is appended at the end. */
  function Bump<K(==)>(b: seq<Bucket<K>>, k: K): (r: seq<Bucket<K>>)
    ensures |r| == |b| || |r| == |b| + 1
    ensures forall i :: 0 <= i < |b| ==> r[i].key == b[i].key
    ensures |r| == |b| + 1 ==> r[|b|] == Bucket(k, 1)
    ensures |r| == |b| + 1 <==> forall i :: 0 <= i < |b| ==> b[i].key != k
  {
    if |b| == 0 then [Bucket(k, 1)]
    else if b[0].key == k then [Bucket(k, b[0].count + 1)] + b[1..]
    else [b[0]] + Bump(b[1..], k)
  }

  /** What a bump does to the counts, the total and the two bucket invariants. */
  lemma {:induction false} BumpCounts<K>(b: seq<Bucket<K>>, k: K)
    requires KeysUnique(b) && NoEmptyBucket(b)
    ensures KeysUnique(Bump(b, k)) && NoEmptyBucket(Bump(b, k))
    ensures forall k' :: CountAt(Bump(b, k), k') == CountAt(b, k') + (if k' == k then 1 else 0)
    ensures Total(Bump(b, k)) == Total(b) + 1
  {
    var r := Bump(b, k);
    if |b| == 0 {
    } else if b[0].key == k {
      assert r[1..] == b[1..];
      forall k'
        ensures CountAt(r, k') == CountAt(b, k') + (if k' == k then 1 else 0)
      {
      }
    } else {
      var tail := b[1..];
      var t := Bump(tail, k);
      BumpCounts(tail, k);
      assert r[1..] == t;
      assert forall i :: 0 <= i < |t| ==> t[i].key != b[0].key by {
        forall i | 0 <= i < |t|
          ensures t[i].key != b[0].key
        {
          if i < |tail| {
            assert t[i].key == b[i + 1].key;
          }
        }
      }
      forall i, j | 0 <= i < j < |r|
        ensures r[i].key != r[j].key
      {
        if i > 0 {
          assert r[i] == t[i - 1] && r[j] == t[j - 1];
        } else {
          assert r[j] == t[j - 1];
        }
      }
      forall k'
        ensures CountAt(r, k') == CountAt(b, k') + (if k' == k then 1 else 0)
      {
      }
    }
  }

  /** Groups keys in order of first appearance and counts each group: the
      result of `reduce((acc, k) => (acc[k] = (acc[k] || 0) + 1, acc), {})`
      read back as entries. */
  function GroupCount<K(==,!new)>(ks: seq<K>): (r: seq<Bucket<K>>)
    ensures KeysUnique(r)
    ensures NoEmptyBucket(r)
    ensures forall k :: CountAt(r, k) == multiset(ks)[k]
    ensures Total(r) == |ks|
  {
    if |ks| == 0 then []
    else
      var init := ks[..|ks| - 1];
      var last := ks[|ks| - 1];
      assert ks == init + [last];
      var prev := GroupCount(init);
      BumpCounts(prev, last);
      Bump(prev, last)
  }

  /** Counting one more item with key `d` into an ascending bucket list. */
  function Tally(b: seq<Bucket<int>>, d: int): (r: seq<Bucket<int>>)
    ensures |r| > 0
    ensures r[0].key == if |b| == 0 || d < b[0].key then d else b[0].key
  {
    if |b| == 0 then [Bucket(d, 1)]
    else if d < b[0].key then [Bucket(d, 1)] + b
    else if d == b[0].key then [Bucket(d, b[0].count + 1)] + b[1..]
    else [b[0]] + Tally(b[1..], d)
  }

  /** What a tally does to the counts, the total and the bucket invariants. */
  lemma {:induction false} TallyCounts(b: seq<Bucket<int>>, d: int)
    requires Ascending(b) && NoEmptyBucket(b)
    ensures Ascending(Tally(b, d)) && NoEmptyBucket(Tally(b, d))
    ensures forall k :: CountAt(Tally(b, d), k) == CountAt(b, k) + (if k == d then 1 else 0)
    ensures Total(Tally(b, d)) == Total(b) + 1
  {
    var r := Tally(b, d);
    if |b| == 0 {
    } else if d < b[0].key {
      assert r[1..] == b;
      forall k | k == d
        ensures CountAt(b, k) == 0
      {
        CountAtAbsent(b, k);
      }
    } else if d == b[0].key {
      assert r[1..] == b[1..];
      forall i, j | 0 <= i < j < |r|
        ensures r[i].key < r[j].key
      {
        assert r[i].key == b[i].key && r[j].key == b[j].key;
      }
    } else {
      TallyCounts(b[1..], d);
      assert r[1..] == Tally(b[1..], d);
      forall i, j | 0 <= i < j < |r|
        ensures r[i].key < r[j].key
      {
        if i == 0 {
          assert r[j] == Tally(b[1..], d)[j - 1];
          assert Tally(b[1..], d)[0].key <= Tally(b[1..], d)[j - 1].key;
        }
      }
    }
  }

  /** Counts items per key, as an ascending list of keys with their counts. */
  function DayCounts(ds: seq<int>): (r: seq<Bucket<int>>)
    ensures Ascending(r)
    ensures NoEmptyBucket(r)
    ensures forall k :: CountAt(r, k) == multiset(ds)[k]
    ensures Total(r) == |ds|
  {
    if |ds| == 0 then []
    else
      var init := ds[..|ds| - 1];
      var last := ds[|ds| - 1];
      assert ds == init + [last];
      var prev := DayCounts(init);
      TallyCounts(prev, last);
      Tally(prev, last)
  }

  /** With unique keys, a bucket's count is the count recorded for its key. */
  lemma {:induction false} CountAtOfBucket<K>(b: seq<Bucket<K>>, i: nat)
    requires KeysUnique(b) && i < |b|
    ensures CountAt(b, b[i].key) == b[i].count
  {
    if i == 0 {
      CountAtAbsent(b[1..], b[0].key);
    } else {
      CountAtOfBucket(b[1..], i - 1);
    }
  }
}
