/** Folds shared by every aggregator: the `reduce((sum, x) => sum + f(x), 0)`
    sums, the general `reduce` and the `filter(p)` selections that the
    dashboard components run over the record history, the `find` lookups,
    and the `slice` calls that trim their results. The folds are peeled from the END of the
    sequence, so that a left-to-right loop can keep the invariant
    `acc == F(xs[..i])`. */
module Folds {
  import opened Wrappers

  /** `xs.reduce((sum, x) => sum + f(x), 0)` */
  function Sum<T>(xs: seq<T>, f: T -> int): int
  {
    if xs == [] then 0 else Sum(xs[..|xs| - 1], f) + f(xs[|xs| - 1])
  }

  /** `xs.filter(p)`: the elements satisfying p, in their original order. */
  function Where<T>(xs: seq<T>, p: T -> bool): seq<T>
  {
    if xs == [] then []
    else Where(xs[..|xs| - 1], p) + (if p(xs[|xs| - 1]) then [xs[|xs| - 1]] else [])
  }

  /** `xs.reduce(add, init)`, and the state a `forEach` loop that does
      `acc = add(acc, x)` leaves behind. */
  function Fold<T, A>(xs: seq<T>, init: A, add: (A, T) -> A): A
  {
    if xs == [] then init else add(Fold(xs[..|xs| - 1], init, add), xs[|xs| - 1])
  }

  /** The number of elements satisfying p. */
  function Count<T>(xs: seq<T>, p: T -> bool): nat
  {
    |Where(xs, p)|
  }

  lemma {:induction false} SumAppend<T>(xs: seq<T>, ys: seq<T>, f: T -> int)
    ensures Sum(xs + ys, f) == Sum(xs, f) + Sum(ys, f)
  {
    if ys == [] {
      assert xs + ys == xs;
    } else {
      var zs := xs + ys;
      assert zs[..|zs| - 1] == xs + ys[..|ys| - 1];
      assert zs[|zs| - 1] == ys[|ys| - 1];
      SumAppend(xs, ys[..|ys| - 1], f);
    }
  }

  lemma SumPrepend<T>(x: T, xs: seq<T>, f: T -> int)
    ensures Sum([x] + xs, f) == f(x) + Sum(xs, f)
  {
    SumAppend([x], xs, f);
    assert [x][..0] == [];
  }

  /** Sums are order-independent: a permutation has the same sum. */
  lemma {:induction false} SumPermutation<T>(xs: seq<T>, ys: seq<T>, f: T -> int)
    requires multiset(xs) == multiset(ys)
    ensures Sum(xs, f) == Sum(ys, f)
  {
    if xs == [] {
      assert |ys| == |multiset(ys)| == 0;
    } else {
      var x := xs[|xs| - 1];
      var rest := xs[..|xs| - 1];
      assert xs == rest + [x];
      assert multiset(xs) == multiset(rest) + multiset{x};
      assert x in multiset(ys);
      var i :| 0 <= i < |ys| && ys[i] == x;
      var ys' := RemoveAt(ys, i, f);
      assert multiset(rest) == multiset(ys');
      SumPermutation(rest, ys', f);
    }
  }

  /** ys without its element at i: one element x fewer in the multiset, f(x)
      less in the sum. */
  function RemoveAt<T>(ys: seq<T>, i: int, f: T -> int): (zs: seq<T>)
    requires 0 <= i < |ys|
    ensures multiset(zs) == multiset(ys) - multiset{ys[i]}
    ensures Sum(zs, f) + f(ys[i]) == Sum(ys, f)
  {
    var zs := ys[..i] + ys[i + 1..];
    assert ys == ys[..i] + [ys[i]] + ys[i + 1..];
    assert multiset(ys) == multiset(ys[..i]) + multiset{ys[i]} + multiset(ys[i + 1..]);
    SumAppend(ys[..i] + [ys[i]], ys[i + 1..], f);
    SumAppend(ys[..i], [ys[i]], f);
    SumAppend(ys[..i], ys[i + 1..], f);
    assert Sum([ys[i]], f) == f(ys[i]) by { assert [ys[i]][..0] == []; }
    zs
  }

  lemma {:induction false} SumNonNegative<T>(xs: seq<T>, f: T -> int)
    requires forall i :: 0 <= i < |xs| ==> f(xs[i]) >= 0
    ensures Sum(xs, f) >= 0
  {
    if xs != [] {
      SumNonNegative(xs[..|xs| - 1], f);
    }
  }

  /** Pointwise smaller terms give a smaller sum. */
  lemma {:induction false} SumMonotone<T>(xs: seq<T>, f: T -> int, g: T -> int)
    requires forall i :: 0 <= i < |xs| ==> f(xs[i]) <= g(xs[i])
    ensures Sum(xs, f) <= Sum(xs, g)
  {
    if xs != [] {
      SumMonotone(xs[..|xs| - 1], f, g);
    }
  }

  lemma {:induction false} WhereAppend<T>(xs: seq<T>, ys: seq<T>, p: T -> bool)
    ensures Where(xs + ys, p) == Where(xs, p) + Where(ys, p)
  {
    if ys == [] {
      assert xs + ys == xs;
    } else {
      var zs := xs + ys;
      assert zs[..|zs| - 1] == xs + ys[..|ys| - 1];
      assert zs[|zs| - 1] == ys[|ys| - 1];
      WhereAppend(xs, ys[..|ys| - 1], p);
    }
  }

  lemma WherePrepend<T>(x: T, xs: seq<T>, p: T -> bool)
    ensures Where([x] + xs, p) == (if p(x) then [x] else []) + Where(xs, p)
  {
    WhereAppend([x], xs, p);
    assert [x][..0] == [];
  }

  /** Filtering keeps exactly the elements that satisfy p. */
  lemma {:induction false} WhereMembers<T>(xs: seq<T>, p: T -> bool)
    ensures forall x :: x in Where(xs, p) <==> x in xs && p(x)
    ensures |Where(xs, p)| <= |xs|
  {
    if xs != [] {
      var rest := xs[..|xs| - 1];
      WhereMembers(rest, p);
      assert xs == rest + [xs[|xs| - 1]];
    }
  }

  /** A filter that keeps everything is the identity. */
  lemma {:induction false} WhereAll<T>(xs: seq<T>, p: T -> bool)
    requires forall i :: 0 <= i < |xs| ==> p(xs[i])
    ensures Where(xs, p) == xs
  {
    if xs != [] {
      WhereAll(xs[..|xs| - 1], p);
      assert xs == xs[..|xs| - 1] + [xs[|xs| - 1]];
    }
  }

  /** A filter that keeps nothing gives the empty sequence. */
  lemma {:induction false} WhereNone<T>(xs: seq<T>, p: T -> bool)
    requires forall i :: 0 <= i < |xs| ==> !p(xs[i])
    ensures Where(xs, p) == []
  {
    if xs != [] {
      WhereNone(xs[..|xs| - 1], p);
    }
  }

  /** Moving an element to the end leaves a filter unchanged, provided
      nothing the filter keeps came after it. */
  lemma WhereSplice<T>(front: seq<T>, z: T, back: seq<T>, p: T -> bool)
    requires p(z) ==> Where(back, p) == []
    ensures Where(front + [z] + back, p) == Where(front + back + [z], p)
  {
    var kz := if p(z) then [z] else [];
    assert Where([z], p) == kz by { assert [z][..0] == []; }
    calc {
      Where(front + [z] + back, p);
      { WhereAppend(front + [z], back, p); }
      Where(front + [z], p) + Where(back, p);
      { WhereAppend(front, [z], p); }
      Where(front, p) + kz + Where(back, p);
      Where(front, p) + Where(back, p) + kz;
      { WhereAppend(front, back, p); }
      Where(front + back, p) + kz;
      { WhereAppend(front + back, [z], p); }
      Where(front + back + [z], p);
    }
  }

  /** Sums are linear: summing f + g is summing f and summing g. */
  lemma {:induction false} SumLinear<T>(xs: seq<T>, f: T -> int, g: T -> int, h: T -> int)
    requires forall i :: 0 <= i < |xs| ==> h(xs[i]) == f(xs[i]) + g(xs[i])
    ensures Sum(xs, h) == Sum(xs, f) + Sum(xs, g)
  {
    if xs != [] {
      SumLinear(xs[..|xs| - 1], f, g, h);
    }
  }

  /** 1 for the elements satisfying p, 0 for the others. */
  function Indicates<T>(p: T -> bool): T -> int
  {
    x => if p(x) then 1 else 0
  }

  lemma {:induction false} CountIsSum<T>(xs: seq<T>, p: T -> bool)
    ensures Count(xs, p) == Sum(xs, Indicates(p))
  {
    if xs != [] {
      CountIsSum(xs[..|xs| - 1], p);
    }
  }

  /** Counts are order-independent. */
  lemma CountPermutation<T>(xs: seq<T>, ys: seq<T>, p: T -> bool)
    requires multiset(xs) == multiset(ys)
    ensures Count(xs, p) == Count(ys, p)
  {
    CountIsSum(xs, p);
    CountIsSum(ys, p);
    SumPermutation(xs, ys, Indicates(p));
  }

  /** Splitting a sum along a predicate and its complement. */
  lemma {:induction false} SumSplit<T>(xs: seq<T>, f: T -> int, p: T -> bool, q: T -> bool)
    requires forall i :: 0 <= i < |xs| ==> q(xs[i]) == !p(xs[i])
    ensures Sum(xs, f) == Sum(Where(xs, p), f) + Sum(Where(xs, q), f)
  {
    if xs != [] {
      var rest, x := xs[..|xs| - 1], xs[|xs| - 1];
      SumSplit(rest, f, p, q);
      SumAppend(Where(rest, p), if p(x) then [x] else [], f);
      SumAppend(Where(rest, q), if q(x) then [x] else [], f);
      assert Sum([x], f) == f(x) by { assert [x][..0] == []; }
    }
  }

  /** A fold whose every step adds f(x) to a component g of the state
      computes the sum of f in that component. */
  lemma {:induction false} FoldComponent<T, A>(xs: seq<T>, init: A, add: (A, T) -> A, g: A -> int, f: T -> int)
    requires forall a, x :: g(add(a, x)) == g(a) + f(x)
    ensures g(Fold(xs, init, add)) == g(init) + Sum(xs, f)
  {
    if xs != [] {
      FoldComponent(xs[..|xs| - 1], init, add, g, f);
    }
  }

  /** `xs.slice(-n)`: the last n elements, or all of them if there are fewer. */
  function TakeLast<T>(xs: seq<T>, n: nat): (r: seq<T>)
    ensures |r| == if |xs| < n then |xs| else n
    ensures forall i :: 0 <= i < |r| ==> r[i] == xs[|xs| - |r| + i]
  {
    if |xs| <= n then xs else xs[|xs| - n..]
  }

  /** `xs.slice(0, n)`: the first n elements, or all of them if there are fewer. */
  function TakeFirst<T>(xs: seq<T>, n: nat): (r: seq<T>)
    ensures |r| == if |xs| < n then |xs| else n
    ensures forall i :: 0 <= i < |r| ==> r[i] == xs[i]
  {
    if |xs| <= n then xs else xs[..n]
  }

  /** A relation holding between every earlier and later element still
      holds after slicing. */
  lemma TakeLastPairs<T>(xs: seq<T>, n: nat, rel: (T, T) -> bool)
    requires forall i, j :: 0 <= i < j < |xs| ==> rel(xs[i], xs[j])
    ensures forall i, j :: 0 <= i < j < |TakeLast(xs, n)| ==> rel(TakeLast(xs, n)[i], TakeLast(xs, n)[j])
  {
    var r := TakeLast(xs, n);
    forall i, j | 0 <= i < j < |r|
      ensures rel(r[i], r[j])
    {
      assert r[i] == xs[|xs| - |r| + i] && r[j] == xs[|xs| - |r| + j];
    }
  }

  lemma TakeFirstPairs<T>(xs: seq<T>, n: nat, rel: (T, T) -> bool)
    requires forall i, j :: 0 <= i < j < |xs| ==> rel(xs[i], xs[j])
    ensures forall i, j :: 0 <= i < j < |TakeFirst(xs, n)| ==> rel(TakeFirst(xs, n)[i], TakeFirst(xs, n)[j])
  {
  }

  /** A sum of ones counts the elements. */
  lemma {:induction false} SumOfOnes<T>(xs: seq<T>, f: T -> int)
    requires forall x :: f(x) == 1
    ensures Sum(xs, f) == |xs|
  {
    if xs != [] {
      SumOfOnes(xs[..|xs| - 1], f);
    }
  }

  /** `xs.find(p)`: the first element satisfying p, if there is one. */
  function Find<T>(xs: seq<T>, p: T -> bool): (r: Option<T>)
    ensures r.None? <==> forall i :: 0 <= i < |xs| ==> !p(xs[i])
    ensures r.Some? ==> r.value in xs && p(r.value)
  {
    if xs == [] then None
    else if p(xs[0]) then Some(xs[0])
    else
      var r := Find(xs[1..], p);
      assert forall i :: 0 < i < |xs| ==> xs[i] == xs[1..][i - 1];
      r
  }

  /** The element find returns is the first one satisfying p. */
  lemma {:induction false} FindFirst<T>(xs: seq<T>, p: T -> bool, k: int)
    requires 0 <= k < |xs| && p(xs[k])
    requires forall j :: 0 <= j < k ==> !p(xs[j])
    ensures Find(xs, p) == Some(xs[k])
  {
    if k > 0 {
      assert !p(xs[0]);
      assert forall j :: 0 <= j < k - 1 ==> xs[1..][j] == xs[j + 1];
      FindFirst(xs[1..], p, k - 1);
    }
  }

  /** The elements filed in bucket d by the index function kf. */
  function InBucket<T>(kf: T -> int, d: int): T -> bool
  {
    x => kf(x) == d
  }

  /** The elements filed in one of the buckets 0 .. n-1. */
  function InBuckets<T>(kf: T -> int, n: int): T -> bool
  {
    x => 0 <= kf(x) < n
  }

  /** The sum of f over bucket d. */
  function BucketSum<T>(xs: seq<T>, f: T -> int, kf: T -> int, d: int): int
  {
    Sum(Where(xs, InBucket(kf, d)), f)
  }

  /** The bucket sums of buckets 0 .. n-1 added up. */
  function BucketsTotal<T>(xs: seq<T>, f: T -> int, kf: T -> int, n: nat): int
  {
    if n == 0 then 0 else BucketsTotal(xs, f, kf, n - 1) + BucketSum(xs, f, kf, n - 1)
  }

  lemma BucketSumStep<T>(xs: seq<T>, f: T -> int, kf: T -> int, d: int)
    requires xs != []
    ensures BucketSum(xs, f, kf, d)
      == BucketSum(xs[..|xs| - 1], f, kf, d) + (if kf(xs[|xs| - 1]) == d then f(xs[|xs| - 1]) else 0)
  {
    var x := xs[|xs| - 1];
    SumAppend(Where(xs[..|xs| - 1], InBucket(kf, d)), if kf(x) == d then [x] else [], f);
    assert Sum([x], f) == f(x) by { assert [x][..0] == []; }
  }

  /** f where p holds, 0 elsewhere. */
  function Masked<T>(f: T -> int, p: T -> bool): T -> int
  {
    x => if p(x) then f(x) else 0
  }

  /** Summing over a filter is summing the masked terms. */
  lemma {:induction false} SumWhereIsMasked<T>(xs: seq<T>, f: T -> int, p: T -> bool)
    ensures Sum(Where(xs, p), f) == Sum(xs, Masked(f, p))
  {
    if xs != [] {
      var rest, x := xs[..|xs| - 1], xs[|xs| - 1];
      SumWhereIsMasked(rest, f, p);
      SumAppend(Where(rest, p), if p(x) then [x] else [], f);
      assert Sum([x], f) == f(x) by { assert [x][..0] == []; }
    }
  }

  /** The buckets 0 .. n-1 together mask the terms outside them. */
  lemma {:induction false} BucketsMasked<T>(xs: seq<T>, f: T -> int, kf: T -> int, n: nat)
    ensures BucketsTotal(xs, f, kf, n) == Sum(xs, Masked(f, InBuckets(kf, n)))
  {
    if n == 0 {
      SumWhereIsMasked(xs, f, InBuckets(kf, 0));
      WhereNone(xs, InBuckets(kf, 0));
    } else {
      BucketsMasked(xs, f, kf, n - 1);
      SumWhereIsMasked(xs, f, InBucket(kf, n - 1));
      MaskedSplit(xs, f, kf, n);
    }
  }

  lemma MaskedSplit<T>(xs: seq<T>, f: T -> int, kf: T -> int, n: int)
    requires n >= 1
    ensures Sum(xs, Masked(f, InBuckets(kf, n)))
      == Sum(xs, Masked(f, InBuckets(kf, n - 1))) + Sum(xs, Masked(f, InBucket(kf, n - 1)))
  {
    SumLinear(xs, Masked(f, InBuckets(kf, n - 1)), Masked(f, InBucket(kf, n - 1)), Masked(f, InBuckets(kf, n)));
  }

  /** Buckets split the sum: together the buckets 0 .. n-1 hold exactly the
      sum over the elements filed in one of them. */
  lemma BucketsCover<T>(xs: seq<T>, f: T -> int, kf: T -> int, n: nat)
    ensures BucketsTotal(xs, f, kf, n) == Sum(Where(xs, InBuckets(kf, n)), f)
  {
    BucketsMasked(xs, f, kf, n);
    SumWhereIsMasked(xs, f, InBuckets(kf, n));
  }
}
