/** Shared vocabulary of the model: optional values, JavaScript truthiness,
    HTTP replies, and order-preserving filters and counts over sequences. */
module Common {

  datatype Option<+T> = None | Some(value: T)

  /** The outcome of a foreign call that may throw. */
  datatype Attempt<+T> = Done(value: T) | Threw

  /** A nullable string is truthy in JavaScript exactly when it is present and non-empty. */
  predicate Truthy(s: Option<string>)
  {
    s.Some? && s.value != ""
  }

  /** JavaScript `s || fallback` on a nullable string. */
  function OrElse(s: Option<string>, fallback: string): string
  {
    if Truthy(s) then s.value else fallback
  }

  /** An HTTP response: a success code with its JSON body, or an error code
      with the `{ error, details }` body the route handlers send. */
  datatype Reply<+T> = Ok(code: nat, body: T) | Fail(code: nat, error: string, details: Option<string>)

  function Deny<T>(code: nat, error: string): Reply<T>
  {
    Fail(code, error, None)
  }

  const Unauthorized := "Unauthorized"
  const InternalError := "Internal server error"

  /** `s.slice(0, n)`: the first n elements, or all of them when there are fewer. */
  function Take<T>(s: seq<T>, n: nat): (r: seq<T>)
    ensures |r| == if |s| < n then |s| else n
    ensures r == s[..|r|]
  {
    if |s| < n then s else s[..n]
  }

  /** `s.filter(p)`: keeps exactly the elements satisfying `p`, with their multiplicities. */
  function Filter<T(!new)>(s: seq<T>, p: T -> bool): (r: seq<T>)
    ensures |r| <= |s|
    ensures forall x :: multiset(r)[x] == if p(x) then multiset(s)[x] else 0
    ensures forall x :: x in r <==> x in s && p(x)
  {
    if |s| == 0 then []
    else
      assert s == [s[0]] + s[1..];
      (if p(s[0]) then [s[0]] else []) + Filter(s[1..], p)
  }

  /** The number of elements satisfying `p`: `s.filter(p).length`. */
  function Count<T(!new)>(s: seq<T>, p: T -> bool): nat
  {
    |Filter(s, p)|
  }

  /** Filtering keeps the relative order of elements: it distributes over concatenation. */
  lemma {:induction false} FilterAppend<T(!new)>(a: seq<T>, b: seq<T>, p: T -> bool)
    ensures Filter(a + b, p) == Filter(a, p) + Filter(b, p)
  {
    if |a| == 0 {
      assert a + b == b;
    } else {
      assert (a + b)[1..] == a[1..] + b;
      FilterAppend(a[1..], b, p);
    }
  }

  /** Counting is additive over concatenation. */
  lemma CountAppend<T(!new)>(a: seq<T>, b: seq<T>, p: T -> bool)
    ensures Count(a + b, p) == Count(a, p) + Count(b, p)
  {
    FilterAppend(a, b, p);
  }

  /** The count of a predicate and the count of its negation add up to the length. */
  lemma {:induction false} CountSplit<T(!new)>(s: seq<T>, p: T -> bool, q: T -> bool)
    requires forall x :: q(x) == !p(x)
    ensures Count(s, p) + Count(s, q) == |s|
  {
    if |s| > 0 {
      CountSplit(s[1..], p, q);
    }
  }

  /** Counts of pairwise-exclusive predicates add up to at most the length. */
  lemma {:induction false} CountDisjoint3<T(!new)>(s: seq<T>, p: T -> bool, q: T -> bool, r: T -> bool)
    requires forall x :: !(p(x) && q(x)) && !(p(x) && r(x)) && !(q(x) && r(x))
    ensures Count(s, p) + Count(s, q) + Count(s, r) <= |s|
  {
    if |s| > 0 {
      CountDisjoint3(s[1..], p, q, r);
    }
  }

  /** Counts of three exclusive predicates that together cover every element add up to the length. */
  lemma {:induction false} CountPartition3<T(!new)>(s: seq<T>, p: T -> bool, q: T -> bool, r: T -> bool)
    requires forall x :: !(p(x) && q(x)) && !(p(x) && r(x)) && !(q(x) && r(x))
    requires forall i :: 0 <= i < |s| ==> p(s[i]) || q(s[i]) || r(s[i])
    ensures Count(s, p) + Count(s, q) + Count(s, r) == |s|
  {
    if |s| > 0 {
      CountPartition3(s[1..], p, q, r);
    }
  }

  /** `s.map(f)`. */
  function Project<T, K>(s: seq<T>, f: T -> K): (r: seq<K>)
    ensures |r| == |s|
    ensures forall i :: 0 <= i < |s| ==> r[i] == f(s[i])
  {
    seq(|s|, i requires 0 <= i < |s| => f(s[i]))
  }

  /** How often a key occurs among the projected keys is the number of
      elements whose key it is. */
  lemma {:induction false} ProjectCount<T(!new), K>(s: seq<T>, f: T -> K, k: K, p: T -> bool)
    requires forall x :: p(x) <==> f(x) == k
    ensures multiset(Project(s, f))[k] == Count(s, p)
  {
    if |s| > 0 {
      ProjectCount(s[1..], f, k, p);
      assert Project(s, f) == [f(s[0])] + Project(s[1..], f);
    }
  }

  /** Two sequences with the same elements counted with multiplicity have equal counts. */
  lemma CountPermutation<T(!new)>(a: seq<T>, b: seq<T>, p: T -> bool)
    requires multiset(a) == multiset(b)
    ensures Count(a, p) == Count(b, p)
  {
    var fa, fb := Filter(a, p), Filter(b, p);
    assert multiset(fa) == multiset(fb) by {
      forall x
        ensures multiset(fa)[x] == multiset(fb)[x]
      {
      }
    }
    assert |multiset(fa)| == |fa|;
    assert |multiset(fb)| == |fb|;
  }
}
